# Digital business card — Dafny model

This project models the behaviour of a one-component React business card
(`src/App.tsx`). The card shows one profile of eight text fields. It can open
an edit form for five of them. It saves the profile in the browser's local
storage under the key `bizCardProfile`, and it can reset to a built-in default
record. It also exports the profile as a vCard file. The model covers four
parts:

- **Profile** (`profile.dfy`, module `Profiles`): the eight-field record, the
  default record, and the single-field update `{ ...profile, [name]: value }`.
  The five input names of the edit form become the enum `Field`.
- **State and actions** (`app.dfy`, module `App`):
  - `AppState` is the edit flag, the profile in memory and the stored slot.
    Transition functions (`Initial`, `Loaded`, `Saved`, `ResetState`,
    `Changed`, `Toggled`, `Restarted`) specify each action, and lemmas state
    what the actions promise.
  - The class `App` holds the component's state as fields. Its methods
    `SaveProfile`, `ResetProfile`, `HandleChange`, `ToggleEditMode` and
    `LoadOnStartup` are each proved to perform exactly their transition.
  - The class `Storage` is the storage entry. It is a separate object, so a
    page reload is a new `App` on the same `Storage`.
  - Four client methods run whole sessions: edit, save or toggle, reset, then
    reload.
- **Export** (`vcard.dfy`, module `VCard`): the nine-line vCard 3.0 text and
  the download file name.
  - `Parse` is a strict reader of that format. It is not part of the card. It
    states what the export means: the six values read back exactly when none
    of them holds a line break.
- **View** (`view.dfy`, module `View`): the avatar address, the contact links
  and the choice between edit form and card.
- `strings.dfy` (module `Strings`) models the one ECMAScript built-in the card
  calls: `ReplaceFirst` is `replace` with a one-character string pattern.
  `IndexOf` models the search for the first match that `replace` performs
  internally. The module also holds the line joining and splitting used to
  state the export's contents.

The export reproduces the code, not RFC 2426:
- Values are inserted verbatim, without the text-value escaping of section 4
  of RFC 2426.
- Lines end with a line feed rather than CRLF (section 5.8.1 of RFC 2425).
- There is no N property.
- The file name replaces only the first space of the name with `_`, as
  `String.prototype.replace` with a string pattern does. So `Ann Marie Smith`
  gives `Ann_Marie Smith.vcf`.

The model keeps these behaviours as written. `VCard.LineBreakInNote` shows the
effect of the missing escaping: a note holding a line break splits into two
lines of the card.

Two behaviours of the code that the model keeps as written:
- A malformed stored record makes `JSON.parse` throw at line 24. The code has
  no fallback to "none".
- `saveProfile`, `resetProfile` and `handleChange` do not check the mode. Their
  buttons and inputs only appear in edit mode, but the actions themselves are
  defined from every state, and so are the model's.

## Model

| member | source | states |
|---|---|---|
| Profiles.WithFrame | src/App.tsx:42-44 | a change of field f to v sets that field to v; every other field, including linkedin, github and website, keeps its value |
| Profiles.WithOverwrite | src/App.tsx:43 | the last change to a field wins; writing back a field's current value leaves the profile as it was |
| Profiles.WithCommute | src/App.tsx:43 | changes to two different fields give the same profile in either order |
| Profiles.EditableFieldsComplete | src/App.tsx:89-93 | the form has five inputs, one for each editable field |
| Strings.IndexOf | src/App.tsx:61 | the position `replace` finds is the first occurrence of the character; -1 exactly when there is none |
| Strings.ReplaceFirstAt | src/App.tsx:61 | `replace` keeps the length; only the first match changes; a string without the pattern is unchanged |
| Strings.ReplaceFirstCount | src/App.tsx:61 | `replace` removes exactly one occurrence of the pattern, so later occurrences remain |
| VCard.FileNameShape | src/App.tsx:61 | the file name is the name, with only its first space turned into `_`, followed by `.vcf`: its length is the name's plus 4, and a name without spaces gives name + `.vcf` |
| VCard.FileNameSpaceCount | src/App.tsx:61 | the file name has exactly one space fewer than a name that has spaces, so later spaces are kept |
| VCard.DefaultFileName | src/App.tsx:61 | the default name `Richard Chelson` gives `Richard_Chelson.vcf` |
| VCard.LinesSingle | src/App.tsx:48-56 | the BEGIN, VERSION and END lines hold no line break; each property line holds one exactly when its own value does; so all nine lines are break-free exactly when the six values are |
| VCard.ParseText | src/App.tsx:48-56 | the text reads back as BEGIN, VERSION:3.0, FN, TITLE, TEL;TYPE=CELL, EMAIL, URL, NOTE, END with the name, title, phone, email, website and bio, exactly when none of these values holds a line break; otherwise it is not a well-formed card |
| VCard.TextDeterminesContact | src/App.tsx:48-56 | for single-line values, equal texts mean equal exported values |
| VCard.TextIgnoresSocialLinks | src/App.tsx:48-56 | linkedin and github do not affect the exported text |
| VCard.LineBreakInNote | src/App.tsx:55 | a line break in the bio is not escaped: the note becomes two lines of the card before END:VCARD |
| VCard.DefaultExport | src/App.tsx:5-14 | the default record exports to a well-formed card with FN Richard Chelson, TEL 228-355-4895, EMAIL rchelson@gmail.com, URL https://example.com, NOTE Building cool apps with AI., and the file name Richard_Chelson.vcf |
| View.AvatarUrlSeed | src/App.tsx:68 | the avatar address is the dicebear prefix followed by the name unencoded; equal addresses exactly for equal names |
| View.SocialLinksSpec | src/App.tsx:128-131 | tel: and mailto: links always come first; a LinkedIn link is present iff linkedin is non-empty, a GitHub link iff github is non-empty, with their hrefs verbatim and in that order |
| View.RenderEditForm | src/App.tsx:84-94 | in edit mode the form shows one input per editable field, in form order, with its current value; after a change only the changed input shows a new value |
| App.StartupSpec | src/App.tsx:17-26 | after a (re)load the card is in view mode, storage is untouched, and the profile is the stored record if there is one, else the default |
| App.SaveSpec | src/App.tsx:29-32 | save stores the profile in memory and leaves it unchanged, closes the form, is idempotent, and a reload after it restores the same state |
| App.ResetSpec | src/App.tsx:35-39 | reset yields the same state from every state: view mode, default record, nothing stored; it is idempotent, and a reload after it shows the default |
| App.ToggleSpec | src/App.tsx:78 | the toggle flips only the mode, keeps unsaved edits, and toggling twice restores the state |
| App.ChangeSpec | src/App.tsx:42-44 | a change updates one field in memory only; a reload forgets it unless it is saved, and after save and reload the changed profile is back |
| App.UncommittedRun | src/App.tsx:42-78 | a session of edits and toggles without save or reset leaves storage as it was, so a reload gives the same card as before the session |
| App.ReloadAfterSave | src/App.tsx:29-32 | after a save and any later edits and toggles, a reload shows the profile as it was saved |
| App.Storage.constructor | src/App.tsx:22 | the storage entry starts with whatever the browser holds |
| App.App.constructor | src/App.tsx:17-18 | the first render is in view mode with the default record |
| App.App.LoadOnStartup | src/App.tsx:21-26 | the startup effect replaces the profile with the stored record if there is one; nothing else changes |
| App.App.SaveProfile | src/App.tsx:29-32 | the stored slot becomes the profile in memory, the mode becomes view, the profile is unchanged |
| App.App.ResetProfile | src/App.tsx:35-39 | the profile becomes the default record, the stored slot is removed, the mode becomes view |
| App.App.HandleChange | src/App.tsx:42-44 | only the named field of the profile changes; mode and storage stay |
| App.App.ToggleEditMode | src/App.tsx:78 | only the mode flips |
| App.App.DownloadVCard | src/App.tsx:47-65 | the download's text is the vCard of the current profile and its name the derived file name; no state changes |
| App.EditSaveReload | src/App.tsx:17-32 | on a first visit, an edited and saved profile is what a reload shows |
| App.EditToggleReload | src/App.tsx:42-78 | an edit left with the toggle stays on the card, but a reload shows the default record |
| App.SaveResetReload | src/App.tsx:29-39 | after save then reset, a reload shows the default record and storage is empty |
| App.ExportDefault | src/App.tsx:47-61 | exporting the default card gives a card that reads back as the default's six values, named Richard_Chelson.vcf |

## Left out

- Markup, CSS classes and icons (other than which link icon a link carries) are presentation only. The toggle button's icon is not modelled.
- The browser side of the download (`Blob`, `URL.createObjectURL`, the temporary anchor, `click`, appending and removing it) is I/O. Only the text and the file name are modelled.
- `localStorage` and `JSON.stringify`/`JSON.parse` are foreign calls. The entry is an `Option<Profile>` and serialisation is the identity.
- A malformed or incomplete stored record is out of scope. It would make `JSON.parse` throw, or leave fields undefined.
- The `if (saved)` test checks the stored JSON text, which is a string or null. It reduces to "present" because the card only ever writes `JSON.stringify(profile)`, which is never the empty string.
- Values other than strings in a stored record are out of scope. So the `profile.linkedin &&` and `profile.github &&` tests reduce to "non-empty".
- Dafny strings are sequences of Unicode scalar values; JavaScript strings are sequences of UTF-16 code units. The lengths in `VCard.FileNameShape` and `View.AvatarUrlSeed` count scalar values, and a lone surrogate cannot be represented. Concatenation and the search for a space behave the same either way.
- The HTTP fetch of the avatar image is network I/O. Only its address is modelled.
- React's scheduling is not modelled: effect timing, re-renders, batching, and the closure capture of `profile` in `handleChange`. Every event is one atomic, sequential transition.
- `handleChange` can only be reached from the five inputs. A change event naming anything else cannot happen and is not modelled.
- `Strings.Split` and `VCard.Parse` have no counterpart in the code. They are a reference reader that states what the exported text contains.
