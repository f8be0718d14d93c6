/**
 * The `Frame` component (`features/contentful/components/frame/frame.tsx`):
 * field defaults, the section's class list, the background image and its
 * overlay, and the three body shapes (hero, duplex, stacked). The component
 * is described by the element tree it returns; things are handed to the
 * `Thing` component as `ThingElement`s and the header to the frame-header
 * component, whose own output is not part of this model.
 */
module Frame {
  import opened Wrappers
  import opened Strings
  import opened Content
  import opened FrameUtils

  /** `<Thing entry={...} display={...} />`; `None` when no display is passed. */
  datatype ThingElement = ThingElement(entry: ThingEntry, display: Option<Display>)

  /**
   * What a duplex column holds. The source compares React elements by
   * reference; distinct tags stand for distinct elements and `EmptySlot`
   * for `null`, so tag equality is exactly that comparison.
   */
  datatype Slot = EmptySlot | HeaderSlot | FirstThing | SecondThing

  /** The background image (rendered by `renderAsset`) and the overlay div's class. */
  datatype Background = Background(media: RenderedAsset, overlayClass: string)

  datatype Body =
      /** Header, an optional dev-mode badge, and at most the first thing in hero display. */
    | HeroBody(badge: bool, lead: Option<ThingElement>)
      /** Two columns; the column contents are slots resolved against `things`. */
    | DuplexBody(gridClass: string, left: Slot, right: Slot, things: seq<ThingEntry>)
      /** Header, then every thing in document order. */
    | StackBody(itemsClass: string, items: seq<ThingElement>)

  /** The `<section>` a frame renders. */
  datatype FrameView = FrameView(sectionClass: string, background: Option<Background>, body: Body)

  /** The frame's fields after the destructuring defaults (which apply to missing fields only). */
  datatype Settings = Settings(
    layout: string, theme: string, backgroundColor: string, backgroundMedia: Option<Asset>,
    things: seq<ThingEntry>, gap: string, padding: string, alignment: string,
    dimBackground: Option<string>, tintColor: Option<string>, hasHeader: bool)

  /** The destructuring defaults of `frame.tsx`: a frame with missing fields reads as a plain single-column frame. */
  function Resolve(fields: Option<FrameFields>): (s: Settings)
    ensures fields.None? ==> s == Settings("single", "light", "neutral", None, [], "md", "md", "left", None, None, false)
    ensures fields.Some? ==>
      && s.layout == fields.value.layout.GetOr("single")
      && s.theme == fields.value.theme.GetOr("light")
      && s.backgroundColor == fields.value.backgroundColor.GetOr("neutral")
      && s.things == fields.value.things.GetOr([])
      && s.gap == fields.value.gap.GetOr("md")
      && s.padding == fields.value.padding.GetOr("md")
      && s.alignment == fields.value.alignment.GetOr("left")
      && s.hasHeader == fields.value.frameHeader.Some?
      && s.backgroundMedia == fields.value.backgroundMedia
      && s.dimBackground == fields.value.dimBackground
      && s.tintColor == fields.value.tintColor
  {
    match fields
    case None => Settings("single", "light", "neutral", None, [], "md", "md", "left", None, None, false)
    case Some(f) =>
      Settings(
        f.layout.GetOr("single"), f.theme.GetOr("light"), f.backgroundColor.GetOr("neutral"), f.backgroundMedia,
        f.things.GetOr([]), f.gap.GetOr("md"), f.padding.GetOr("md"), f.alignment.GetOr("left"),
        f.dimBackground, f.tintColor, f.frameHeader.Some?)
  }

  /** The text-alignment class. */
  function AlignClass(alignment: string): (r: string)
    ensures r == "text-center" <==> alignment == "center"
    ensures r == "text-right" <==> alignment == "right"
    ensures alignment != "center" && alignment != "right" ==> r == "text-left"
  {
    if alignment == "center" then "text-center" else if alignment == "right" then "text-right" else "text-left"
  }

  /** The container classes: the surface pair, the padding and the alignment, space-separated. */
  function ContainerClass(s: Settings): (r: string)
    ensures r == BgClass(s.theme, s.backgroundColor) + " " + PaddingClass(Some(s.padding)) + " " + AlignClass(s.alignment)
  {
    CxOfThree(BgClass(s.theme, s.backgroundColor), PaddingClass(Some(s.padding)), AlignClass(s.alignment));
    Cx([Some(BgClass(s.theme, s.backgroundColor)), Some(PaddingClass(Some(s.padding))), Some(AlignClass(s.alignment))])
  }

  const SectionBase := "relative overflow-hidden"
  const TransparentSurface := "bg-transparent"
  const WhiteText := "text-white"

  /**
   * The `<section>` class. Without a background image it is the container
   * class; with one, "bg-transparent" follows the surface tokens, "text-white"
   * is forced exactly for a transparent colour, and the image text token comes last.
   */
  function SectionClass(s: Settings): (r: string)
    ensures s.backgroundMedia.None? ==> r == SectionBase + " " + ContainerClass(s)
    ensures s.backgroundMedia.Some? ==>
      r == SectionBase + " " + ContainerClass(s) + " " + TransparentSurface
        + (if s.backgroundColor == "transparent" then " " + WhiteText else "")
        + " " + TextClassFromBgColor(s.theme, s.backgroundColor)
  {
    var hasImage := s.backgroundMedia.Some?;
    SectionClassSpelledOut(s);
    Cx([
      Some(SectionBase),
      Some(ContainerClass(s)),
      if hasImage then Some(TransparentSurface) else None,
      if hasImage && s.backgroundColor == "transparent" then Some(WhiteText) else None,
      if hasImage then Some(TextClassFromBgColor(s.theme, s.backgroundColor)) else None
    ])
  }

  /** The duplex slot contents: a node exists only for a present header or thing. */
  function HeaderNode(s: Settings): Slot { if s.hasHeader then HeaderSlot else EmptySlot }
  function FirstNode(s: Settings): Slot { if |s.things| > 0 then FirstThing else EmptySlot }
  function SecondNode(s: Settings): Slot { if |s.things| > 1 then SecondThing else EmptySlot }

  /** The image content types that the duplex layout prefers on the right. */
  predicate IsImageType(ctid: Option<string>) {
    ctid == Some("imageWrapper") || ctid == Some("pexelsImageWrapper")
  }

  function FirstType(s: Settings): Option<string> {
    if |s.things| > 0 then s.things[0].sys.contentType else None
  }

  /**
   * The duplex column assignment in closed form. With a header: the header
   * and the first thing, ordered by alignment. Without: the first two things,
   * reversed when the alignment is "right" or the first thing is an image.
   */
  function DuplexSlots(s: Settings): (slots: (Slot, Slot))
    ensures s.hasHeader ==> multiset{slots.0, slots.1} == multiset{HeaderSlot, FirstNode(s)}
    ensures !s.hasHeader ==> multiset{slots.0, slots.1} == multiset{FirstNode(s), SecondNode(s)}
  {
    if s.hasHeader then
      if s.alignment == "right" then (FirstNode(s), HeaderSlot) else (HeaderSlot, FirstNode(s))
    else if s.alignment == "right" || IsImageType(FirstType(s)) then (SecondNode(s), FirstNode(s))
    else (FirstNode(s), SecondNode(s))
  }

  /**
   * The slot assignment in `frame.tsx` as written: `left`/`right` are assigned by alignment, then
   * swapped through `tmp` when the first thing is an image sitting on the left.
   */
  method AssignDuplexSlots(s: Settings) returns (left: Slot, right: Slot)
    ensures (left, right) == DuplexSlots(s)
  {
    var headerNode := HeaderNode(s);
    var firstNode := FirstNode(s);
    var secondNode := SecondNode(s);
    left := EmptySlot;
    right := EmptySlot;
    if s.hasHeader {
      if s.alignment == "right" {
        left := firstNode;
        right := headerNode;
      } else {
        left := headerNode;
        right := firstNode;
      }
    } else {
      if s.alignment == "right" {
        left := secondNode;
        right := firstNode;
      } else {
        left := firstNode;
        right := secondNode;
      }
      if IsImageType(FirstType(s)) && left == firstNode {
        var tmp := left;
        left := right;
        right := tmp;
      }
      // the source's second-thing image check does nothing here
    }
  }

  /** The thing elements of the stacked layout: every thing, in order, without a display. */
  function StackItems(things: seq<ThingEntry>): (items: seq<ThingElement>)
    ensures |items| == |things|
    ensures forall i :: 0 <= i < |things| ==> items[i] == ThingElement(things[i], None)
  {
    if |things| == 0 then [] else [ThingElement(things[0], None)] + StackItems(things[1..])
  }

  /** The body for the resolved settings. */
  function FrameBody(s: Settings, devMode: bool): (b: Body)
    ensures b.HeroBody? <==> s.layout == "hero"
    ensures b.HeroBody? ==>
      && (b.badge <==> s.backgroundMedia.None? && devMode)
      && (|s.things| == 0 ==> b.lead.None?)
      && (|s.things| > 0 ==> b.lead == Some(ThingElement(s.things[0], Some(HeroDisplay))))
    ensures b.DuplexBody? <==> s.layout == "duplex"
    ensures b.DuplexBody? ==>
      && (b.left, b.right) == DuplexSlots(s) && b.things == s.things
      && b.gridClass == DuplexGrid + " " + GapClass(Some(s.gap))
    ensures b.StackBody? ==>
      && b.itemsClass == LayoutClass(s.layout) + " " + GapClass(Some(s.gap)) + " " + StackRowGap
      && |b.items| == |s.things|
      && forall i :: 0 <= i < |s.things| ==> b.items[i].entry == s.things[i] && b.items[i].display.None?
  {
    if s.layout == "hero" then
      HeroBody(s.backgroundMedia.None? && devMode,
               if |s.things| > 0 then Some(ThingElement(s.things[0], Some(HeroDisplay))) else None)
    else if s.layout == "duplex" then
      var slots := DuplexSlots(s);
      CxOfTwo(DuplexGrid, GapClass(Some(s.gap)));
      DuplexBody(Cx([Some(DuplexGrid), Some(GapClass(Some(s.gap)))]), slots.0, slots.1, s.things)
    else
      var items := LayoutClass(s.layout) + " " + GapClass(Some(s.gap));
      CxOfTwo(items, StackRowGap);
      StackBody(Cx([Some(items), Some(StackRowGap)]), StackItems(s.things))
  }

  /** The duplex grid's fixed classes, before the gap class. */
  const DuplexGrid := "grid grid-cols-1 md:grid-cols-2 gap-8 md:items-center gap-y-10"
  /** The row gap every stacked layout adds after its layout and gap classes. */
  const StackRowGap := "gap-y-10"

  /**
   * `Frame(frame)`: the live version of the frame (`patches`), its defaults
   * applied; `devMode` stands for a non-production build.
   */
  function RenderFrame(frame: FrameEntry, patches: Preview, devMode: bool): (v: FrameView)
    ensures var s := Resolve(LiveFrame(patches, frame).fields);
      && (v.background.Some? <==> s.backgroundMedia.Some?)
      && (v.background.Some? ==>
            && v.background.value.media == RenderAsset(Some(AssetValue(s.backgroundMedia.value)), Some(CoverClass))
            && v.background.value.media != NoRender
            && v.background.value.overlayClass == OverlayBase + " " + OverlayFromOptions(s.dimBackground, s.tintColor))
      && v.sectionClass == SectionClass(s)
      && v.body == FrameBody(s, devMode)
  {
    var live := LiveFrame(patches, frame);
    var s := Resolve(live.fields);
    var background :=
      if s.backgroundMedia.Some? then
        CxOfTwo(OverlayBase, OverlayFromOptions(s.dimBackground, s.tintColor));
        Some(Background(
          RenderAsset(Some(AssetValue(s.backgroundMedia.value)), Some(CoverClass)),
          Cx([Some(OverlayBase), Some(OverlayFromOptions(s.dimBackground, s.tintColor))])))
      else None;
    FrameView(SectionClass(s), background, FrameBody(s, devMode))
  }

  const CoverClass := "w-full h-full object-cover"
  const OverlayBase := "absolute inset-0 -z-10 pointer-events-none"

  // ---------------------------------------------------------------- properties

  lemma CxOfTwo(a: string, b: string)
    requires a != "" && b != ""
    ensures Cx([Some(a), Some(b)]) == a + " " + b
  {
    CxAppend([Some(a)], [Some(b)]);
    assert [Some(a)] + [Some(b)] == [Some(a), Some(b)];
    CxSingle(Some(a));
    CxSingle(Some(b));
  }

  lemma CxOfThree(a: string, b: string, c: string)
    requires a != "" && b != "" && c != ""
    ensures Cx([Some(a), Some(b), Some(c)]) == a + " " + b + " " + c
  {
    CxAppend([Some(a)], [Some(b), Some(c)]);
    CxAppend([Some(b)], [Some(c)]);
    CxSingle(Some(a));
    CxSingle(Some(b));
    CxSingle(Some(c));
    assert [Some(a)] + [Some(b), Some(c)] == [Some(a), Some(b), Some(c)];
    assert [Some(b)] + [Some(c)] == [Some(b), Some(c)];
  }

  /** A class that `cx` appends when it is truthy: a space and the class. */
  function Appended(c: Option<string>): string {
    if c.Some? && c.value != "" then " " + c.value else ""
  }

  /** A non-empty class followed, left to right, by each truthy class of `cs` with its space. */
  function AppendAll(a: string, cs: seq<Option<string>>): string
    decreases cs
  {
    if |cs| == 0 then a else AppendAll(a + Appended(cs[0]), cs[1..])
  }

  lemma GlueAssoc(a: string, u: string, v: string)
    requires a != ""
    ensures Glue(a, Glue(u, v)) == Glue(Glue(a, u), v)
  {
    if u != "" && v != "" {
      assert a + " " + (u + " " + v) == (a + " " + u) + " " + v;
    }
  }

  lemma CxHeadSplit(cs: seq<Option<string>>)
    requires |cs| > 0
    ensures Cx(cs) == Glue(Cx([cs[0]]), Cx(cs[1..]))
  {
    CxAppend([cs[0]], cs[1..]);
    assert [cs[0]] + cs[1..] == cs;
  }

  lemma GlueHead(a: string, c: Option<string>)
    requires a != ""
    ensures Glue(a, Cx([c])) == a + Appended(c)
  {
    CxSingle(c);
  }

  /** Gluing a non-empty class to `cx(cs)` appends each truthy class of `cs` with its space. */
  lemma {:induction false} GlueCx(a: string, cs: seq<Option<string>>)
    requires a != ""
    ensures Glue(a, Cx(cs)) == AppendAll(a, cs)
    decreases cs
  {
    if |cs| > 0 {
      CxHeadSplit(cs);
      GlueAssoc(a, Cx([cs[0]]), Cx(cs[1..]));
      GlueHead(a, cs[0]);
      GlueCx(a + Appended(cs[0]), cs[1..]);
    }
  }

  /** `cx` of a present class followed by others. */
  lemma CxPresentHead(a: string, cs: seq<Option<string>>)
    requires a != ""
    ensures Cx([Some(a)] + cs) == AppendAll(a, cs)
  {
    CxAppend([Some(a)], cs);
    CxSingle(Some(a));
    GlueCx(a, cs);
  }

  lemma AppendAllOfFour(a: string, b: string, x: Option<string>, y: Option<string>, z: Option<string>)
    requires b != ""
    ensures AppendAll(a, [Some(b), x, y, z]) == a + " " + b + Appended(x) + Appended(y) + Appended(z)
  {
    var cs := [Some(b), x, y, z];
    assert cs[1..] == [x, y, z] && cs[1..][1..] == [y, z] && cs[1..][1..][1..] == [z] && [z][1..] == [];
    var a1 := a + " " + b;
    assert a + Appended(Some(b)) == a1;
    var a2 := a1 + Appended(x);
    var a3 := a2 + Appended(y);
    assert AppendAll(a, cs) == AppendAll(a1, [x, y, z]);
    assert AppendAll(a1, [x, y, z]) == AppendAll(a2, [y, z]);
    assert AppendAll(a2, [y, z]) == AppendAll(a3, [z]);
    assert AppendAll(a3, [z]) == a3 + Appended(z);
  }

  lemma ConcatAssoc(a: string, b: string, c: string)
    ensures a + (b + c) == a + b + c
  {
  }

  lemma CxTwoThenThree(a: string, b: string, x: Option<string>, y: Option<string>, z: Option<string>)
    requires a != "" && b != ""
    ensures Cx([Some(a), Some(b), x, y, z]) == a + " " + b + Appended(x) + Appended(y) + Appended(z)
  {
    assert [Some(a), Some(b), x, y, z] == [Some(a)] + [Some(b), x, y, z];
    CxPresentHead(a, [Some(b), x, y, z]);
    AppendAllOfFour(a, b, x, y, z);
  }

  /** The `cx` call of `SectionClass`, spelled out. */
  lemma SectionClassSpelledOut(s: Settings)
    ensures var hasImage := s.backgroundMedia.Some?;
      var cs := [
        Some(SectionBase),
        Some(ContainerClass(s)),
        if hasImage then Some(TransparentSurface) else None,
        if hasImage && s.backgroundColor == "transparent" then Some(WhiteText) else None,
        if hasImage then Some(TextClassFromBgColor(s.theme, s.backgroundColor)) else None
      ];
      && (!hasImage ==> Cx(cs) == SectionBase + " " + ContainerClass(s))
      && (hasImage ==>
            Cx(cs) == SectionBase + " " + ContainerClass(s) + " " + TransparentSurface
              + (if s.backgroundColor == "transparent" then " " + WhiteText else "")
              + " " + TextClassFromBgColor(s.theme, s.backgroundColor))
  {
    var hasImage := s.backgroundMedia.Some?;
    var t := TextClassFromBgColor(s.theme, s.backgroundColor);
    if hasImage {
      var head := SectionBase + " " + ContainerClass(s);
      var white := if s.backgroundColor == "transparent" then " " + WhiteText else "";
      ConcatAssoc(head, " ", TransparentSurface);
      ConcatAssoc(head + " " + TransparentSurface + white, " ", t);
    }
    CxTwoThenThree(SectionBase, ContainerClass(s),
      if hasImage then Some(TransparentSurface) else None,
      if hasImage && s.backgroundColor == "transparent" then Some(WhiteText) else None,
      if hasImage then Some(t) else None);
  }

  /** A frame whose fields are missing renders exactly like one that spells out the defaults. */
  lemma MissingFieldsAreDefaults(frame: FrameEntry, devMode: bool)
    requires frame.fields.None?
    ensures RenderFrame(frame, NoPreview, devMode) ==
      RenderFrame(frame.(fields := Some(FrameFields(
        Some("single"), Some("light"), Some("neutral"), None, None,
        Some("md"), Some("md"), Some("left"), None, None, None))), NoPreview, devMode)
  {
  }

  /** With a header the second thing is never shown and no image swap happens. */
  lemma DuplexHeaderIgnoresSecondThing(s: Settings)
    requires s.hasHeader
    ensures DuplexSlots(s).0 != SecondThing && DuplexSlots(s).1 != SecondThing
    ensures DuplexSlots(s) == if s.alignment == "right" then (FirstNode(s), HeaderSlot) else (HeaderSlot, FirstNode(s))
  {
  }

  /** Without a header and with a left or centred alignment, an image first thing moves to the right. */
  lemma DuplexImagePrefersRight(s: Settings)
    requires !s.hasHeader && s.alignment != "right" && |s.things| > 0 && IsImageType(FirstType(s))
    ensures DuplexSlots(s).1 == FirstThing
  {
  }

  /**
   * The swap looks only at the first thing: under "right" alignment a
   * callout followed by an image puts the image on the left, and two images
   * always end up as [second | first].
   */
  lemma DuplexSwapLooksAtFirstOnly(s: Settings)
    requires !s.hasHeader && |s.things| >= 2
    ensures s.alignment == "right" && !IsImageType(FirstType(s)) && IsImageType(s.things[1].sys.contentType) ==>
      DuplexSlots(s) == (SecondThing, FirstThing)
    ensures IsImageType(FirstType(s)) && IsImageType(s.things[1].sys.contentType) ==>
      DuplexSlots(s) == (SecondThing, FirstThing)
  {
  }

  /** Without a header, left alignment and a non-image first thing keep the things in order. */
  lemma DuplexPlainKeepsOrder(s: Settings)
    requires !s.hasHeader && |s.things| >= 2
    requires s.alignment != "right" && !IsImageType(FirstType(s))
    ensures DuplexSlots(s) == (FirstThing, SecondThing)
  {
  }
}
