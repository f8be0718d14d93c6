/**
 * The thing dispatcher (`features/contentful/components/frame/things/index.tsx`):
 * `ThingView` picks a renderer by content type, and `Thing` routes an entry
 * through the personalization `Experience` component when it carries at
 * least one experience. The personalization SDK's `isExperienceEntry` and
 * `mapExperience` are parameters.
 */
module Things {
  import opened Wrappers
  import Js
  import opened Content
  import opened ThingCallout
  import opened ThingImage

  /** What `ThingView` renders. */
  datatype ThingOutput =
    | Nothing
    | CalloutOut(callout: CalloutView)
    | ImageOut(image: ImageView)
      /** The blog-post renderer, which is not part of this model, gets the live entry and no display. */
    | BlogPostOut(post: ThingEntry)

  /** A rendering together with the console warning it emits, if any. */
  datatype Rendered = Rendered(output: ThingOutput, warning: Option<string>)

  /** `ThingView({ entry, display })`. */
  function ThingView(entry: ThingEntry, patches: Preview, display: Display): (r: Rendered)
    ensures !Js.Truthy(LiveThing(patches, entry).sys.contentType) ==> r == Rendered(Nothing, None)
    ensures r.warning.Some? <==>
      Js.Truthy(LiveThing(patches, entry).sys.contentType)
      && LiveThing(patches, entry).sys.contentType.value !in {"callout", "imageWrapper", "pexelsImageWrapper", "blogPost"}
    ensures r.warning.Some? ==> r.output == Nothing
    ensures r.warning.Some? ==>
      && |r.warning.value| == |UnsupportedPrefix| + |LiveThing(patches, entry).sys.contentType.value|
      && r.warning.value[..|UnsupportedPrefix|] == UnsupportedPrefix
      && r.warning.value[|UnsupportedPrefix|..] == LiveThing(patches, entry).sys.contentType.value
    ensures r.output.CalloutOut? <==> LiveThing(patches, entry).sys.contentType == Some("callout")
    ensures r.output.ImageOut? <==>
      LiveThing(patches, entry).sys.contentType in {Some("imageWrapper"), Some("pexelsImageWrapper")}
    ensures r.output.BlogPostOut? <==> LiveThing(patches, entry).sys.contentType == Some("blogPost")
    ensures r.output.CalloutOut? ==> r.output.callout == RenderCallout(LiveThing(patches, entry), patches, Some(display))
    ensures r.output.ImageOut? ==> r.output.image == RenderImage(LiveThing(patches, entry), patches, Some(display))
    ensures r.output.BlogPostOut? ==> r.output.post == LiveThing(patches, entry)
  {
    var live := LiveThing(patches, entry);
    var ctid := live.sys.contentType;
    if !Js.Truthy(ctid) then Rendered(Nothing, None)
    else if ctid.value == "callout" then Rendered(CalloutOut(RenderCallout(live, patches, Some(display))), None)
    else if ctid.value == "imageWrapper" || ctid.value == "pexelsImageWrapper" then
      Rendered(ImageOut(RenderImage(live, patches, Some(display))), None)
    else if ctid.value == "blogPost" then Rendered(BlogPostOut(live), None)
    else Rendered(Nothing, Some(UnsupportedPrefix + ctid.value))
  }

  /**
   * The text `console.warn("Unsupported Thing content type:", ctid)` prints
   * before the type: the first argument and the space that separates arguments.
   */
  const UnsupportedPrefix := "Unsupported Thing content type:" + " "

  /** `items.filter(keep).map(f)`. */
  function FilterMap<X, Y>(items: seq<X>, keep: X -> bool, f: X -> Y): (r: seq<Y>)
    ensures |r| <= |items|
    ensures |r| > 0 <==> exists i :: 0 <= i < |items| && keep(items[i])
    ensures forall k :: 0 <= k < |r| ==> exists i :: 0 <= i < |items| && keep(items[i]) && r[k] == f(items[i])
  {
    if |items| == 0 then []
    else
      var rest := FilterMap(items[1..], keep, f);
      assert forall k :: 0 <= k < |rest| ==> exists i :: 0 <= i < |items| && keep(items[i]) && rest[k] == f(items[i]) by {
        forall k | 0 <= k < |rest|
          ensures exists i :: 0 <= i < |items| && keep(items[i]) && rest[k] == f(items[i])
        {
          var i :| 0 <= i < |items[1..]| && keep(items[1..][i]) && rest[k] == f(items[1..][i]);
          assert items[i + 1] == items[1..][i];
        }
      }
      assert (exists i :: 0 <= i < |items[1..]| && keep(items[1..][i])) ==> exists i :: 0 <= i < |items| && keep(items[i]) by {
        if exists i :: 0 <= i < |items[1..]| && keep(items[1..][i]) {
          var i :| 0 <= i < |items[1..]| && keep(items[1..][i]);
          assert items[i + 1] == items[1..][i];
        }
      }
      assert (exists i :: 0 <= i < |items| && keep(items[i])) ==> keep(items[0]) || exists i :: 0 <= i < |items[1..]| && keep(items[1..][i]) by {
        if exists i :: 0 <= i < |items| && keep(items[i]) {
          var i :| 0 <= i < |items| && keep(items[i]);
          if i > 0 { assert items[1..][i - 1] == items[i]; }
        }
      }
      if keep(items[0]) then [f(items[0])] + rest else rest
  }

  /** One item is mapped exactly when it passes the filter. */
  lemma FilterMapSingle<X, Y>(x: X, keep: X -> bool, f: X -> Y)
    ensures FilterMap([x], keep, f) == if keep(x) then [f(x)] else []
  {
    assert [x][1..] == [];
  }

  /** Filtering and mapping a concatenation keeps each half's survivors, in order. */
  lemma {:induction false} FilterMapAppend<X, Y>(a: seq<X>, b: seq<X>, keep: X -> bool, f: X -> Y)
    ensures FilterMap(a + b, keep, f) == FilterMap(a, keep, f) + FilterMap(b, keep, f)
  {
    if |a| == 0 {
      assert a + b == b;
    } else {
      assert (a + b)[1..] == a[1..] + b;
      FilterMapAppend(a[1..], b, keep, f);
    }
  }

  /** `nt_experiences ?? []`, then only an array yields experiences. */
  function ExperienceItems(field: Option<ExperiencesField>): (items: seq<ExperienceRef>)
    ensures field.None? || field == Some(NotAList) ==> items == []
    ensures field.Some? && field.value.ExperienceList? ==> items == field.value.items
  {
    match field
    case None => []
    case Some(NotAList) => []
    case Some(ExperienceList(xs)) => xs
  }

  /** What `Thing` renders. */
  datatype ThingElementView<M> =
      /**
       * `<Experience id=... experiences=...>`, with `ThingView` in the entry's
       * display as both its loading component (`loading`, on the live entry)
       * and its variant component.
       */
    | Personalized(id: string, experiences: seq<M>, display: Display, loading: Rendered)
    | Direct(view: Rendered)

  /** `Thing({ entry, display })`: display defaults to "default". */
  function RenderThing<M>(entry: ThingEntry, patches: Preview, display: Option<Display>,
                          isExperience: ExperienceRef -> bool, mapExperience: ExperienceRef -> M): (v: ThingElementView<M>)
    ensures v.Personalized? <==>
      exists i :: 0 <= i < |ExperienceItems(LiveThing(patches, entry).fields.experiences)|
        && isExperience(ExperienceItems(LiveThing(patches, entry).fields.experiences)[i])
    ensures v.Personalized? ==>
      && v.id == LiveThing(patches, entry).sys.id
      && v.display == display.GetOr(DefaultDisplay)
      && v.loading == ThingView(LiveThing(patches, entry), patches, display.GetOr(DefaultDisplay))
      && v.experiences == FilterMap(ExperienceItems(LiveThing(patches, entry).fields.experiences), isExperience, mapExperience)
    ensures v.Direct? ==> v.view == ThingView(LiveThing(patches, entry), patches, display.GetOr(DefaultDisplay))
  {
    var live := LiveThing(patches, entry);
    var d := display.GetOr(DefaultDisplay);
    var mapped := FilterMap(ExperienceItems(live.fields.experiences), isExperience, mapExperience);
    if |mapped| > 0 then Personalized(live.sys.id, mapped, d, ThingView(live, patches, d))
    else Direct(ThingView(live, patches, d))
  }

  /** A thing whose `nt_experiences` is not an array renders directly, whatever the filter says. */
  lemma NonArrayExperiencesRenderDirectly<M>(entry: ThingEntry, display: Option<Display>,
                                             isExperience: ExperienceRef -> bool, mapExperience: ExperienceRef -> M)
    requires entry.fields.experiences == Some(NotAList)
    ensures RenderThing(entry, NoPreview, display, isExperience, mapExperience).Direct?
  {
  }

  /** An unknown content type renders nothing, with a warning naming the type, and never a placeholder. */
  lemma UnknownTypeRendersNothing(entry: ThingEntry, display: Display, ctype: string)
    requires entry.sys.contentType == Some(ctype) && ctype != ""
    requires ctype !in {"callout", "imageWrapper", "pexelsImageWrapper", "blogPost"}
    ensures ThingView(entry, NoPreview, display) == Rendered(Nothing, Some(UnsupportedPrefix + ctype))
  {
  }
}
