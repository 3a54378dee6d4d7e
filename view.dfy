/**
 * What the card shows for a profile: the generated avatar's address, the
 * contact links under the card, and which of the two screens (the edit form
 * or the card) is on display.
 */
module View {
  import opened Profiles

  /** The avatar service's address; the name is appended as the seed, unencoded. */
  const AvatarPrefix := "https://api.dicebear.com/9.x/avataaars/svg?seed="

  function AvatarUrl(name: string): string
  {
    AvatarPrefix + name
  }

  /**
   * The avatar address is the fixed prefix followed by the name, character for
   * character, so the same name always gives the same address and two names
   * give the same address only if they are equal.
   */
  lemma AvatarUrlSeed(name: string, other: string)
    ensures |AvatarUrl(name)| == |AvatarPrefix| + |name|
    ensures AvatarUrl(name)[..|AvatarPrefix|] == AvatarPrefix
    ensures AvatarUrl(name)[|AvatarPrefix|..] == name
    ensures AvatarUrl(name) == AvatarUrl(other) <==> name == other
  {
  }

  /** The icon of a contact link, in the order the links are laid out. */
  datatype Icon = PhoneIcon | MailIcon | LinkedinIcon | GithubIcon

  function Rank(icon: Icon): nat
  {
    match icon
    case PhoneIcon => 0
    case MailIcon => 1
    case LinkedinIcon => 2
    case GithubIcon => 3
  }

  /** A rendered link: its icon, its href, and whether it opens in a new tab. */
  datatype Anchor = Anchor(icon: Icon, href: string, newTab: bool)

  /**
   * The contact links: phone and mail always; LinkedIn and GitHub (opening in
   * a new tab) only when their fields are not the empty string.
   */
  function SocialLinks(p: Profile): seq<Anchor>
  {
    [Anchor(PhoneIcon, "tel:" + p.phone, false), Anchor(MailIcon, "mailto:" + p.email, false)]
    + (if p.linkedin != "" then [Anchor(LinkedinIcon, p.linkedin, true)] else [])
    + (if p.github != "" then [Anchor(GithubIcon, p.github, true)] else [])
  }

  predicate HasIcon(links: seq<Anchor>, icon: Icon)
  {
    exists k :: 0 <= k < |links| && links[k].icon == icon
  }

  /**
   * The phone and mail links come first; a LinkedIn link is there exactly when
   * the LinkedIn field is not empty, a GitHub link exactly when the GitHub field
   * is not empty; each carries its field verbatim, and no icon repeats or comes
   * out of order.
   */
  lemma SocialLinksSpec(p: Profile)
    ensures var r := SocialLinks(p);
      && |r| == 2 + (if p.linkedin != "" then 1 else 0) + (if p.github != "" then 1 else 0)
      && r[0] == Anchor(PhoneIcon, "tel:" + p.phone, false)
      && r[1] == Anchor(MailIcon, "mailto:" + p.email, false)
      && (HasIcon(r, LinkedinIcon) <==> p.linkedin != "")
      && (HasIcon(r, GithubIcon) <==> p.github != "")
      && (forall k :: 0 <= k < |r| && r[k].icon == LinkedinIcon ==> r[k] == Anchor(LinkedinIcon, p.linkedin, true))
      && (forall k :: 0 <= k < |r| && r[k].icon == GithubIcon ==> r[k] == Anchor(GithubIcon, p.github, true))
      && (forall k, l :: 0 <= k < l < |r| ==> Rank(r[k].icon) < Rank(r[l].icon))
  {
    var r := SocialLinks(p);
    if p.linkedin != "" {
      assert r[2].icon == LinkedinIcon;
    }
    if p.github != "" {
      assert r[|r| - 1].icon == GithubIcon;
    }
  }

  /** An input of the edit form: the field it is named after and the value it shows. */
  datatype Input = Input(field: Field, value: string)

  /** The two screens of the card. */
  datatype Screen =
    | EditForm(inputs: seq<Input>)
    | CardView(avatarUrl: string, name: string, title: string, bio: string, links: seq<Anchor>)

  /** The edit form in edit mode; otherwise the card with avatar, name, title, bio and links. */
  function Render(isEditMode: bool, p: Profile): Screen
  {
    if isEditMode then
      EditForm(seq(|EditableFields|, k requires 0 <= k < |EditableFields| => Input(EditableFields[k], Get(p, EditableFields[k]))))
    else
      CardView(AvatarUrl(p.name), p.name, p.title, p.bio, SocialLinks(p))
  }

  /**
   * In edit mode the form has one input per editable field, in the order name,
   * title, phone, email, bio, each showing that field's current value; after a
   * change to field `f`, the input named `f` shows the new value and the
   * others are as before.
   */
  lemma RenderEditForm(p: Profile, f: Field, v: string)
    ensures Render(true, p).EditForm?
    ensures |Render(true, p).inputs| == 5
    ensures forall k :: 0 <= k < 5 ==>
      Render(true, p).inputs[k] == Input(EditableFields[k], Get(p, EditableFields[k]))
    ensures forall k :: 0 <= k < 5 ==>
      Render(true, With(p, f, v)).inputs[k].value ==
        if EditableFields[k] == f then v else Render(true, p).inputs[k].value
  {
  }
}
