/**
 * The landing page (`features/contentful/components/contentful-landing-page.tsx`):
 * the page's frames first, then one output per legacy section, chosen from a
 * closed map of section renderers with a placeholder for anything else.
 */
module LandingPage {
  import opened Wrappers
  import opened Strings
  import Js
  import opened Content
  import opened Frame

  /** The content types the component map knows. */
  predicate Mapped(ctid: Option<string>) {
    ctid == Some("heroBanner") || ctid == Some("cta")
  }

  /** One rendered child of the page. */
  datatype PageItem =
    | FrameItem(frame: FrameView)
      /** The personalized hero banner, given the section entry. */
    | HeroBannerItem(section: SectionEntry)
      /** The call-to-action wrapper, given the section entry. */
    | CtaItem(section: SectionEntry)
      /** "Missing component for content type: X", where a missing type shows nothing. */
    | MissingComponent(contentType: Option<string>)

  function SectionType(section: SectionEntry): Option<string> {
    if section.sys.Some? then section.sys.value.contentType else None
  }

  /** The output for one section. */
  function SectionItem(section: SectionEntry): (item: PageItem)
    ensures item.MissingComponent? <==> !Mapped(SectionType(section))
    ensures item.MissingComponent? ==> item.contentType == SectionType(section)
    ensures item.HeroBannerItem? <==> SectionType(section) == Some("heroBanner")
    ensures !item.FrameItem?
    ensures item.HeroBannerItem? || item.CtaItem? ==> item.section == section
  {
    var ctid := SectionType(section);
    if !Js.Truthy(ctid) || !Mapped(ctid) then MissingComponent(ctid)
    else if ctid.value == "heroBanner" then HeroBannerItem(section)
    else CtaItem(section)
  }

  /** The start of the warning an unmapped section logs. */
  const MissingPrefix := "No component found for content type: "

  /** The warning a section without a renderer logs: the prefix, then its type as interpolated. */
  function SectionWarning(section: SectionEntry): (w: Option<string>)
    ensures w.Some? <==> !Mapped(SectionType(section))
    ensures w.Some? ==> StartsWith(w.value, MissingPrefix) && EndsWith(w.value, Js.Interp(SectionType(section)))
    ensures w.Some? ==> |w.value| == |MissingPrefix| + |Js.Interp(SectionType(section))|
    ensures w.Some? ==> w.value[|MissingPrefix|..] == Js.Interp(SectionType(section))
  {
    if Mapped(SectionType(section)) then None
    else
      StartsWithAppend(MissingPrefix, Js.Interp(SectionType(section)), MissingPrefix);
      EndsWithAppend(MissingPrefix, Js.Interp(SectionType(section)));
      Some(MissingPrefix + Js.Interp(SectionType(section)))
  }

  /** The sections' outputs, in document order. */
  function SectionItems(sections: seq<SectionEntry>): (items: seq<PageItem>)
    ensures |items| == |sections|
    ensures forall i :: 0 <= i < |sections| ==> items[i] == SectionItem(sections[i])
  {
    if |sections| == 0 then [] else [SectionItem(sections[0])] + SectionItems(sections[1..])
  }

  /** The frames' outputs, in document order. */
  function FrameItems(frames: seq<FrameEntry>, patches: Preview, devMode: bool): (items: seq<PageItem>)
    ensures |items| == |frames|
    ensures forall i :: 0 <= i < |frames| ==> items[i] == FrameItem(RenderFrame(frames[i], patches, devMode))
  {
    if |frames| == 0 then [] else [FrameItem(RenderFrame(frames[0], patches, devMode))] + FrameItems(frames[1..], patches, devMode)
  }

  /** The console warnings, one per unmapped section, in document order. */
  function Warnings(sections: seq<SectionEntry>): (w: seq<string>)
    ensures |w| <= |sections|
    ensures w == [] <==> forall i :: 0 <= i < |sections| ==> Mapped(SectionType(sections[i]))
    ensures forall k :: 0 <= k < |w| ==> StartsWith(w[k], MissingPrefix)
  {
    if |sections| == 0 then []
    else
      var rest := Warnings(sections[1..]);
      assert forall i :: 1 <= i < |sections| ==> sections[i] == sections[1..][i - 1];
      match SectionWarning(sections[0])
      case Some(msg) => [msg] + rest
      case None => rest
  }

  /** One section logs its own warning, if it has one. */
  lemma WarningsSingle(section: SectionEntry)
    ensures Warnings([section]) == if SectionWarning(section).Some? then [SectionWarning(section).value] else []
  {
    assert [section][1..] == [];
  }

  /** The warnings of consecutive runs of sections are logged one run after the other. */
  lemma {:induction false} WarningsAppend(a: seq<SectionEntry>, b: seq<SectionEntry>)
    ensures Warnings(a + b) == Warnings(a) + Warnings(b)
  {
    if |a| == 0 {
      assert a + b == b;
    } else {
      assert (a + b)[1..] == a[1..] + b;
      WarningsAppend(a[1..], b);
    }
  }

  /** The page's children and the warnings logged while rendering them. */
  datatype PageView = PageView(items: seq<PageItem>, warnings: seq<string>)

  function Frames(page: PageEntry): seq<FrameEntry> {
    if page.fields.Some? && page.fields.value.frames.Some? then page.fields.value.frames.value else []
  }

  function Sections(page: PageEntry): seq<SectionEntry> {
    if page.fields.Some? && page.fields.value.sections.Some? then page.fields.value.sections.value else []
  }

  /** `ContentfulLandingPage({ entry })` on the live version of the page. */
  function RenderLandingPage(page: PageEntry, patches: Preview, devMode: bool): (v: PageView)
    ensures |v.items| == |Frames(LivePage(patches, page))| + |Sections(LivePage(patches, page))|
    ensures v.items == FrameItems(Frames(LivePage(patches, page)), patches, devMode) + SectionItems(Sections(LivePage(patches, page)))
    ensures v.warnings == Warnings(Sections(LivePage(patches, page)))
  {
    var live := LivePage(patches, page);
    PageView(FrameItems(Frames(live), patches, devMode) + SectionItems(Sections(live)), Warnings(Sections(live)))
  }

  /** Every frame comes before every section, and the i-th section gives the output after the frames. */
  lemma FramesBeforeSections(page: PageEntry, patches: Preview, devMode: bool)
    ensures var v := RenderLandingPage(page, patches, devMode);
            var nf := |Frames(LivePage(patches, page))|;
            && (forall i :: 0 <= i < nf ==> v.items[i].FrameItem?)
            && (forall i :: 0 <= i < |Sections(LivePage(patches, page))| ==>
                  v.items[nf + i] == SectionItem(Sections(LivePage(patches, page))[i]))
  {
  }

  /** The number of placeholders among page items. */
  function Placeholders(items: seq<PageItem>): nat {
    if |items| == 0 then 0 else (if items[0].MissingComponent? then 1 else 0) + Placeholders(items[1..])
  }

  /** One warning is logged per placeholder shown. */
  lemma {:induction false} WarningsCountPlaceholders(sections: seq<SectionEntry>)
    ensures |Warnings(sections)| == Placeholders(SectionItems(sections))
  {
    if |sections| > 0 {
      WarningsCountPlaceholders(sections[1..]);
      assert SectionItems(sections)[1..] == SectionItems(sections[1..]);
    }
  }
}
