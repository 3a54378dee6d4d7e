/**
 * The "Save Contact" export: the vCard 3.0 text built from the profile and
 * the name of the downloaded file. The text is the card's fixed nine-line
 * template with the values inserted verbatim: unlike RFC 2426 (section 4),
 * no value is escaped; unlike RFC 2425 (section 5.8.1), lines are separated by
 * a line feed alone; and there is no N property.
 */
module VCard {
  import opened Wrappers
  import opened Strings
  import opened Profiles

  const LineBreak: char := '\n'

  /** The lines of the template, in order (FN, TITLE, TEL, EMAIL, URL, NOTE). */
  function Lines(p: Profile): seq<string>
  {
    [ "BEGIN:VCARD",
      "VERSION:3.0",
      "FN:" + p.name,
      "TITLE:" + p.title,
      "TEL;TYPE=CELL:" + p.phone,
      "EMAIL:" + p.email,
      "URL:" + p.website,
      "NOTE:" + p.bio,
      "END:VCARD" ]
  }

  /** The exported text: the template's lines separated by line feeds, with no final line break. */
  function Text(p: Profile): string
  {
    Join(Lines(p), LineBreak)
  }

  /** `${name.replace(' ', '_')}.vcf`: only the first space becomes an underscore. */
  function FileName(name: string): string
  {
    ReplaceFirst(name, ' ', '_') + ".vcf"
  }

  /** The six values a vCard reader recovers from an exported text. */
  datatype Contact = Contact(fn: string, title: string, tel: string, email: string, url: string, note: string)

  /** What the export is meant to carry: LinkedIn and GitHub are not part of it. */
  function ContactOf(p: Profile): Contact
  {
    Contact(p.name, p.title, p.phone, p.email, p.website, p.bio)
  }

  /** True when none of the six exported values holds a line break. */
  predicate SingleLineValues(p: Profile)
  {
    && LineBreak !in p.name
    && LineBreak !in p.title
    && LineBreak !in p.phone
    && LineBreak !in p.email
    && LineBreak !in p.website
    && LineBreak !in p.bio
  }

  predicate StartsWith(s: string, prefix: string)
  {
    |prefix| <= |s| && s[..|prefix|] == prefix
  }

  /**
   * A strict reader of the exported format: exactly nine lines, the fixed ones
   * as written and each property line with its own name; the values are what
   * follows the names. It is not part of the card; it states what the export
   * means.
   */
  function Parse(text: string): Option<Contact>
  {
    var ls := Split(text, LineBreak);
    if && |ls| == 9
       && ls[0] == "BEGIN:VCARD"
       && ls[1] == "VERSION:3.0"
       && StartsWith(ls[2], "FN:")
       && StartsWith(ls[3], "TITLE:")
       && StartsWith(ls[4], "TEL;TYPE=CELL:")
       && StartsWith(ls[5], "EMAIL:")
       && StartsWith(ls[6], "URL:")
       && StartsWith(ls[7], "NOTE:")
       && ls[8] == "END:VCARD"
    then Some(Contact(ls[2][3..], ls[3][6..], ls[4][14..], ls[5][6..], ls[6][4..], ls[7][5..]))
    else None
  }

  lemma NoBreakInPrefixes()
    ensures LineBreak !in "BEGIN:VCARD" && LineBreak !in "VERSION:3.0" && LineBreak !in "END:VCARD"
    ensures LineBreak !in "FN:" && LineBreak !in "TITLE:" && LineBreak !in "TEL;TYPE=CELL:"
    ensures LineBreak !in "EMAIL:" && LineBreak !in "URL:" && LineBreak !in "NOTE:"
  {
  }

  /**
   * A template line holds a line break exactly when the value inserted into it
   * does; the three fixed lines hold none. Hence all nine lines are free of
   * breaks exactly when the six exported values are.
   */
  lemma LinesSingle(p: Profile)
    ensures var ls := Lines(p);
      && LineBreak !in ls[0] && LineBreak !in ls[1] && LineBreak !in ls[8]
      && (LineBreak in ls[2] <==> LineBreak in p.name)
      && (LineBreak in ls[3] <==> LineBreak in p.title)
      && (LineBreak in ls[4] <==> LineBreak in p.phone)
      && (LineBreak in ls[5] <==> LineBreak in p.email)
      && (LineBreak in ls[6] <==> LineBreak in p.website)
      && (LineBreak in ls[7] <==> LineBreak in p.bio)
    ensures SingleLineValues(p) <==> forall k :: 0 <= k < 9 ==> LineBreak !in Lines(p)[k]
  {
  }

  /**
   * Reading the export back gives the six exported values exactly when none of
   * them holds a line break; a value with a line break (which the export does
   * not escape) leaves a text that is not a well-formed card.
   */
  lemma {:induction false} ParseText(p: Profile)
    ensures Parse(Text(p)) == if SingleLineValues(p) then Some(ContactOf(p)) else None
  {
    var ls := Lines(p);
    LinesSingle(p);
    if SingleLineValues(p) {
      SplitJoin(ls, LineBreak);
      assert Split(Text(p), LineBreak) == ls;
      assert ("FN:" + p.name)[3..] == p.name;
      assert ("TITLE:" + p.title)[6..] == p.title;
      assert ("TEL;TYPE=CELL:" + p.phone)[14..] == p.phone;
      assert ("EMAIL:" + p.email)[6..] == p.email;
      assert ("URL:" + p.website)[4..] == p.website;
      assert ("NOTE:" + p.bio)[5..] == p.bio;
    } else {
      JoinCount(ls, LineBreak);
      SplitLength(Text(p), LineBreak);
      assert |Split(Text(p), LineBreak)| >= 10;
    }
  }

  /** Two profiles with single-line values export the same text only if they agree on every exported value. */
  lemma TextDeterminesContact(p: Profile, q: Profile)
    requires SingleLineValues(p) && SingleLineValues(q)
    requires Text(p) == Text(q)
    ensures ContactOf(p) == ContactOf(q)
  {
    ParseText(p);
    ParseText(q);
  }

  /** The LinkedIn and GitHub fields never reach the export. */
  lemma TextIgnoresSocialLinks(p: Profile, linkedin: string, github: string)
    ensures Text(p.(linkedin := linkedin, github := github)) == Text(p)
  {
  }

  /**
   * A line break in the note is copied into the text unescaped, so the note
   * becomes two lines of the card: the text reads as the first seven lines,
   * "NOTE:" with the part before the break, the part after it as a line of its
   * own, then "END:VCARD".
   */
  lemma {:induction false} LineBreakInNote(p: Profile, before: string, after: string)
    requires p.bio == before + [LineBreak] + after
    requires LineBreak !in before && LineBreak !in after
    requires SingleLineValues(p.(bio := ""))
    ensures Split(Text(p), LineBreak) == Lines(p)[..7] + ["NOTE:" + before, after, "END:VCARD"]
  {
    var ls := Lines(p);
    var note := "NOTE:" + before;
    var tail := [note, after, "END:VCARD"];
    var read := ls[..7] + tail;
    assert forall k :: 0 <= k < |read| ==> LineBreak !in read[k] by {
      NoBreakInPrefixes();
      LinesSingle(p.(bio := ""));
      forall k | 0 <= k < |read| ensures LineBreak !in read[k] {
        if k < 7 {
          assert read[k] == Lines(p.(bio := ""))[k];
        }
      }
    }
    assert Join(read, LineBreak) == Text(p) by {
      JoinSplitsAt(ls, LineBreak, 7);
      JoinSplitsAt(read, LineBreak, 7);
      assert read[..7] == ls[..7] && read[7..] == tail;
      assert ls[7..] == [ls[7], ls[8]];
      assert ls[7] == note + [LineBreak] + after;
    }
    SplitJoin(read, LineBreak);
  }

  /**
   * The file name keeps the name's length and characters, except that its
   * first space becomes an underscore, then adds ".vcf"; a name without a
   * space keeps all its characters.
   */
  lemma FileNameShape(name: string)
    ensures |FileName(name)| == |name| + 4
    ensures FileName(name)[|name|..] == ".vcf"
    ensures ' ' !in name ==> FileName(name) == name + ".vcf"
    ensures ' ' in name ==>
      var i := IndexOf(name, ' ');
      && FileName(name)[i] == '_'
      && forall j :: 0 <= j < |name| && j != i ==> FileName(name)[j] == name[j]
  {
    var stem := ReplaceFirst(name, ' ', '_');
    ReplaceFirstAt(name, ' ', '_');
    assert FileName(name) == stem + ".vcf";
    assert forall j :: 0 <= j < |name| ==> FileName(name)[j] == stem[j];
  }

  /** Only the first space is replaced: the file name has one space fewer than a name with spaces. */
  lemma FileNameSpaceCount(name: string)
    ensures Count(FileName(name), ' ') == if ' ' in name then Count(name, ' ') - 1 else 0
  {
    var stem := ReplaceFirst(name, ' ', '_');
    ReplaceFirstCount(name, ' ', '_');
    CountZero(name, ' ');
    CountZero(".vcf", ' ');
    CountConcat(stem, ".vcf", ' ');
  }

  /** None of the default record's exported values holds a line break. */
  lemma DefaultSingleLine(p: Profile)
    requires p == Default
    ensures SingleLineValues(p)
  {
    assert forall k :: 0 <= k < |p.name| ==> p.name[k] != LineBreak;
    assert forall k :: 0 <= k < |p.title| ==> p.title[k] != LineBreak;
    assert forall k :: 0 <= k < |p.phone| ==> p.phone[k] != LineBreak;
    assert forall k :: 0 <= k < |p.email| ==> p.email[k] != LineBreak;
    assert forall k :: 0 <= k < |p.website| ==> p.website[k] != LineBreak;
    assert forall k :: 0 <= k < |p.bio| ==> p.bio[k] != LineBreak;
  }

  /**
   * The default card's export reads back as its six exported values (the text
   * is a well-formed card with FN:Richard Chelson, TEL;TYPE=CELL:228-355-4895,
   * and so on), and its file is named Richard_Chelson.vcf.
   */
  lemma DefaultExport()
    ensures Parse(Text(Default)) == Some(Contact(
      "Richard Chelson", "Creative Developer", "228-355-4895",
      "rchelson@gmail.com", "https://example.com", "Building cool apps with AI."))
    ensures FileName(Default.name) == "Richard" + "_" + "Chelson" + ".vcf"
  {
    DefaultSingleLine(Default);
    ParseText(Default);
    DefaultFileName(Default.name);
  }

  /** The default name gives the file Richard_Chelson.vcf. */
  lemma DefaultFileName(name: string)
    requires name == "Richard Chelson"
    ensures FileName(name) == "Richard" + "_" + "Chelson" + ".vcf"
  {
    var first, last := "Richard", "Chelson";
    assert name[..7] == first && name[7] == ' ' && name[8..] == last;
    assert forall k :: 0 <= k < |first| ==> first[k] != ' ';
    IndexOfAt(name, ' ', 7);
  }
}
