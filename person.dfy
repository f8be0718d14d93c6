/**
 * The person view model (`features/contentful/components/person/person-wrapper.tsx`):
 * display name, bio and website of an author entry, and the inline/card choice.
 */
module Person {
  import opened Wrappers
  import opened Strings
  import Js

  /** The linked external-URL entry's fields. */
  datatype WebsiteFields = WebsiteFields(url: Option<string>)
  datatype Website = Website(fields: Option<WebsiteFields>)

  datatype PersonFields = PersonFields(firstName: Option<string>, lastName: Option<string>, bio: Option<string>, website: Option<Website>)

  /** A person entry with the renderer's own `isInline` flag. */
  datatype PersonEntry = PersonEntry(fields: Option<PersonFields>, isInline: Option<bool>)

  datatype PersonView =
    | InlinePerson(name: string, website: string)
    | PersonCard(name: string, bio: string)

  function FirstName(e: PersonEntry): Option<string> { if e.fields.Some? then e.fields.value.firstName else None }
  function LastName(e: PersonEntry): Option<string> { if e.fields.Some? then e.fields.value.lastName else None }

  /** `${firstName} ${lastName}`: a missing part is spelled "undefined". */
  function DisplayName(e: PersonEntry): (name: string)
    ensures |name| == |Js.Interp(FirstName(e))| + 1 + |Js.Interp(LastName(e))|
    ensures name[|Js.Interp(FirstName(e))|] == ' '
    ensures name[..|Js.Interp(FirstName(e))|] == Js.Interp(FirstName(e))
    ensures name[|Js.Interp(FirstName(e))| + 1..] == Js.Interp(LastName(e))
  {
    Js.Interp(FirstName(e)) + " " + Js.Interp(LastName(e))
  }

  /** `bio || ""`. */
  function Bio(e: PersonEntry): (bio: string)
    ensures e.fields.Some? && Js.Truthy(e.fields.value.bio) ==> bio == e.fields.value.bio.value
    ensures !(e.fields.Some? && Js.Truthy(e.fields.value.bio)) ==> bio == ""
  {
    Js.OrElse(if e.fields.Some? then e.fields.value.bio else None, "")
  }

  function WebsiteUrl(e: PersonEntry): Option<string> {
    if e.fields.Some? && e.fields.value.website.Some? && e.fields.value.website.value.fields.Some?
    then e.fields.value.website.value.fields.value.url else None
  }

  /** `website?.fields?.url || "/"`: never empty, "/" when the link is missing or empty. */
  function WebsiteOf(e: PersonEntry): (w: string)
    ensures w != ""
    ensures Js.Truthy(WebsiteUrl(e)) ==> w == WebsiteUrl(e).value
    ensures !Js.Truthy(WebsiteUrl(e)) ==> w == "/"
  {
    Js.OrElse(WebsiteUrl(e), "/")
  }

  /** `PersonWrapper(entry)`: the inline variant shows name and website, the card name and bio. */
  function RenderPerson(e: PersonEntry): (v: PersonView)
    ensures v.InlinePerson? <==> e.isInline == Some(true)
    ensures v.name == DisplayName(e)
    ensures v.InlinePerson? ==> v.website == WebsiteOf(e)
    ensures v.PersonCard? ==> v.bio == Bio(e)
  {
    if e.isInline == Some(true) then InlinePerson(DisplayName(e), WebsiteOf(e))
    else PersonCard(DisplayName(e), Bio(e))
  }

  /** A name built from space-free parts splits back into those parts. */
  lemma DisplayNameSplitsBack(e: PersonEntry)
    requires ' ' !in Js.Interp(FirstName(e)) && ' ' !in Js.Interp(LastName(e))
    ensures Split(DisplayName(e), ' ') == [Js.Interp(FirstName(e)), Js.Interp(LastName(e))]
  {
    var first, last := Js.Interp(FirstName(e)), Js.Interp(LastName(e));
    assert DisplayName(e) == first + [' '] + last;
    SplitAtSeparator(first, ' ', last);
    SplitNoSeparator(last, ' ');
  }

  /** An entry without fields is "undefined undefined" with website "/" and an empty bio. */
  lemma MissingFieldsPerson(isInline: Option<bool>)
    ensures DisplayName(PersonEntry(None, isInline)) == "undefined undefined"
    ensures WebsiteOf(PersonEntry(None, isInline)) == "/"
    ensures Bio(PersonEntry(None, isInline)) == ""
  {
  }
}
