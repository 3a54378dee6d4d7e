/**
 * The string operations the business card relies on: the ECMAScript built-in
 * it calls, String.prototype.replace with a one-character string pattern, and
 * the search for the first match that replace performs internally (modelled
 * on indexOf); plus line splitting and joining used to state what the
 * exported text contains.
 */
module Strings {

  /** Number of occurrences of `c` in `s`. */
  function Count(s: string, c: char): (n: nat)
    ensures n <= |s|
  {
    if s == [] then 0
    else (if s[0] == c then 1 else 0) + Count(s[1..], c)
  }

  /** Nothing is counted exactly when there is nothing to count. */
  lemma {:induction false} CountZero(s: string, c: char)
    ensures Count(s, c) == 0 <==> c !in s
  {
    if s != [] {
      CountZero(s[1..], c);
      assert s == [s[0]] + s[1..];
    }
  }

  lemma {:induction false} CountConcat(a: string, b: string, c: char)
    ensures Count(a + b, c) == Count(a, c) + Count(b, c)
  {
    if a == [] {
      assert a + b == b;
    } else {
      assert (a + b)[1..] == a[1..] + b;
      CountConcat(a[1..], b, c);
    }
  }

  /**
   * The search `replace` performs for its first match (as indexOf does, for a
   * one-character pattern): the position of the first `c` in `s`, or -1 when
   * there is none.
   */
  function IndexOf(s: string, c: char): (i: int)
    ensures -1 <= i < |s|
    ensures i == -1 <==> c !in s
    ensures 0 <= i ==> s[i] == c && forall k :: 0 <= k < i ==> s[k] != c
  {
    if s == [] then -1
    else if s[0] == c then 0
    else
      var j := IndexOf(s[1..], c);
      if j == -1 then -1
      else
        j + 1
  }

  /** The first occurrence is the only position holding `c` with no `c` before it. */
  lemma IndexOfAt(s: string, c: char, i: nat)
    requires i < |s| && s[i] == c
    requires forall k :: 0 <= k < i ==> s[k] != c
    ensures IndexOf(s, c) == i
  {
  }

  /**
   * String.prototype.replace(pattern, replacement) with a one-character string
   * pattern: as ECMAScript defines it, only the first match (found with
   * indexOf) is replaced; a string without the pattern is returned as is.
   */
  function ReplaceFirst(s: string, pattern: char, replacement: char): string
  {
    var i := IndexOf(s, pattern);
    if i < 0 then s else s[..i] + [replacement] + s[i + 1..]
  }

  /** Writing `x` at position `i` changes that position only. */
  lemma SpliceAt(s: string, i: nat, x: char)
    requires i < |s|
    ensures |s[..i] + [x] + s[i + 1..]| == |s|
    ensures (s[..i] + [x] + s[i + 1..])[i] == x
    ensures forall j :: 0 <= j < |s| && j != i ==> (s[..i] + [x] + s[i + 1..])[j] == s[j]
  {
  }

  /** Writing a different character over one occurrence counts one fewer. */
  lemma {:induction false} CountSplice(s: string, i: nat, pattern: char, replacement: char)
    requires i < |s| && s[i] == pattern && pattern != replacement
    ensures Count(s[..i] + [replacement] + s[i + 1..], pattern) + 1 == Count(s, pattern)
  {
    var before, after := s[..i], s[i + 1..];
    assert s == before + [pattern] + after;
    CountConcat(before + [pattern], after, pattern);
    CountConcat(before, [pattern], pattern);
    CountConcat(before + [replacement], after, pattern);
    CountConcat(before, [replacement], pattern);
  }

  /** Replacing keeps the length and every character but the first match. */
  lemma ReplaceFirstAt(s: string, pattern: char, replacement: char)
    ensures |ReplaceFirst(s, pattern, replacement)| == |s|
    ensures pattern !in s ==> ReplaceFirst(s, pattern, replacement) == s
    ensures pattern in s ==>
      var i := IndexOf(s, pattern);
      && ReplaceFirst(s, pattern, replacement)[i] == replacement
      && (forall k :: 0 <= k < i ==> s[k] != pattern)
      && forall j :: 0 <= j < |s| && j != i ==> ReplaceFirst(s, pattern, replacement)[j] == s[j]
  {
    var i := IndexOf(s, pattern);
    if 0 <= i {
      SpliceAt(s, i, replacement);
    }
  }

  /**
   * Exactly one occurrence of the pattern disappears: every later occurrence
   * is still there.
   */
  lemma ReplaceFirstCount(s: string, pattern: char, replacement: char)
    requires pattern != replacement
    ensures Count(ReplaceFirst(s, pattern, replacement), pattern) ==
      if pattern in s then Count(s, pattern) - 1 else Count(s, pattern)
  {
    var i := IndexOf(s, pattern);
    if 0 <= i {
      CountSplice(s, i, pattern, replacement);
    }
  }

  /** The lines joined with `sep` between consecutive ones (Array.prototype.join). */
  function Join(lines: seq<string>, sep: char): string
  {
    if lines == [] then []
    else if |lines| == 1 then lines[0]
    else lines[0] + [sep] + Join(lines[1..], sep)
  }

  /** Joining splits at any line boundary. */
  lemma {:induction false} JoinSplitsAt(lines: seq<string>, sep: char, k: nat)
    requires 0 < k < |lines|
    ensures Join(lines, sep) == Join(lines[..k], sep) + [sep] + Join(lines[k..], sep)
  {
    if k > 1 {
      JoinSplitsAt(lines[1..], sep, k - 1);
      assert lines[1..][..k - 1] == lines[..k][1..];
      assert lines[1..][k - 1..] == lines[k..];
    }
  }

  /**
   * The text cut at every `sep`: always at least one piece, and no piece
   * contains `sep`. Not used by the card itself; it reads an exported text back.
   */
  function Split(s: string, sep: char): (r: seq<string>)
    ensures |r| >= 1
    ensures forall k :: 0 <= k < |r| ==> sep !in r[k]
  {
    if s == [] then [[]]
    else
      var rest := Split(s[1..], sep);
      if s[0] == sep then [[]] + rest
      else [[s[0]] + rest[0]] + rest[1..]
  }

  /** Splitting yields one more piece than there are separators. */
  lemma {:induction false} SplitLength(s: string, sep: char)
    ensures |Split(s, sep)| == Count(s, sep) + 1
  {
    if s != [] {
      SplitLength(s[1..], sep);
    }
  }

  lemma {:induction false} SplitWithoutSep(s: string, sep: char)
    requires sep !in s
    ensures Split(s, sep) == [s]
  {
    if s != [] {
      SplitWithoutSep(s[1..], sep);
      assert [s[0]] + s[1..] == s;
    }
  }

  lemma {:induction false} SplitAtFirst(a: string, b: string, sep: char)
    requires sep !in a
    ensures Split(a + [sep] + b, sep) == [a] + Split(b, sep)
  {
    if a == [] {
      assert (a + [sep] + b)[1..] == b;
    } else {
      assert (a + [sep] + b)[1..] == a[1..] + [sep] + b;
      SplitAtFirst(a[1..], b, sep);
      assert [a[0]] + a[1..] == a;
    }
  }

  /** Splitting undoes joining lines that contain no separator. */
  lemma {:induction false} SplitJoin(lines: seq<string>, sep: char)
    requires |lines| >= 1
    requires forall k :: 0 <= k < |lines| ==> sep !in lines[k]
    ensures Split(Join(lines, sep), sep) == lines
  {
    if |lines| == 1 {
      SplitWithoutSep(lines[0], sep);
    } else {
      SplitJoin(lines[1..], sep);
      SplitAtFirst(lines[0], Join(lines[1..], sep), sep);
      assert [lines[0]] + lines[1..] == lines;
    }
  }

  /**
   * The separators of a joined text: exactly |lines| - 1 when no line holds
   * one, and at least |lines| when some line does.
   */
  lemma {:induction false} JoinCount(lines: seq<string>, sep: char)
    requires |lines| >= 1
    ensures (forall k :: 0 <= k < |lines| ==> sep !in lines[k]) ==>
      Count(Join(lines, sep), sep) == |lines| - 1
    ensures (exists k :: 0 <= k < |lines| && sep in lines[k]) ==>
      Count(Join(lines, sep), sep) >= |lines|
  {
    if |lines| == 1 {
      CountZero(lines[0], sep);
    } else {
      CountZero(lines[0], sep);
      JoinCount(lines[1..], sep);
      CountConcat(lines[0] + [sep], Join(lines[1..], sep), sep);
      CountConcat(lines[0], [sep], sep);
      if exists k :: 0 <= k < |lines| && sep in lines[k] {
        var k :| 0 <= k < |lines| && sep in lines[k];
        if k > 0 {
          assert sep in lines[1..][k - 1];
        }
      }
    }
  }
}
