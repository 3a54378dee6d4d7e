/**
 * The card's one record: the profile, with its eight text fields in the order
 * the default record lists them, and the single-field update the edit form
 * performs through the input's `name` attribute.
 */
module Profiles {

  datatype Profile = Profile(
    name: string,
    title: string,
    phone: string,
    email: string,
    bio: string,
    linkedin: string,
    github: string,
    website: string)

  /** The record compiled into the card, used until something is saved. */
  const Default := Profile(
    "Richard Chelson",
    "Creative Developer",
    "228-355-4895",
    "rchelson@gmail.com",
    "Building cool apps with AI.",
    "https://linkedin.com",
    "https://github.com",
    "https://example.com")

  /** The `name` attributes of the five inputs of the edit form, in form order. */
  datatype Field = Name | Title | Phone | Email | Bio

  const EditableFields: seq<Field> := [Name, Title, Phone, Email, Bio]

  /** The value the input named `f` shows. */
  function Get(p: Profile, f: Field): string
  {
    match f
    case Name => p.name
    case Title => p.title
    case Phone => p.phone
    case Email => p.email
    case Bio => p.bio
  }

  /** `{ ...p, [f]: v }`: a copy of `p` whose field `f` is `v`. */
  function With(p: Profile, f: Field, v: string): Profile
  {
    match f
    case Name => p.(name := v)
    case Title => p.(title := v)
    case Phone => p.(phone := v)
    case Email => p.(email := v)
    case Bio => p.(bio := v)
  }

  /**
   * A single-field update sets exactly the named field: every other editable
   * field and the three fields the form does not show keep their values.
   */
  lemma WithFrame(p: Profile, f: Field, v: string)
    ensures Get(With(p, f, v), f) == v
    ensures forall g :: g != f ==> Get(With(p, f, v), g) == Get(p, g)
    ensures With(p, f, v).linkedin == p.linkedin
    ensures With(p, f, v).github == p.github
    ensures With(p, f, v).website == p.website
  {
  }

  /** The last write to a field wins, and writing back a field's value changes nothing. */
  lemma WithOverwrite(p: Profile, f: Field, a: string, b: string)
    ensures With(With(p, f, a), f, b) == With(p, f, b)
    ensures With(p, f, Get(p, f)) == p
  {
  }

  /** Updates of two different fields commute. */
  lemma WithCommute(p: Profile, f: Field, g: Field, a: string, b: string)
    requires f != g
    ensures With(With(p, f, a), g, b) == With(With(p, g, b), f, a)
  {
  }

  /** Each field of the form appears once, and the form lists every field. */
  lemma EditableFieldsComplete(f: Field)
    ensures f in EditableFields
    ensures |EditableFields| == 5
  {
  }
}
