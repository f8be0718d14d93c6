/**
 * The image thing (`features/contentful/components/frame/things/Image.tsx`):
 * which source it renders (a CMS asset, a Pexels size variant, or a legacy
 * URL), the field it reports to the inspector, and its wrapper class.
 */
module ThingImage {
  import opened Wrappers
  import Js
  import opened Content
  import opened FrameUtils

  /** `fields.asset || fields.image`: an asset object is always truthy. */
  function AssetOf(f: ThingFields): (a: Option<Asset>)
    ensures a.Some? <==> f.asset.Some? || f.image.Some?
    ensures f.asset.Some? ==> a == f.asset
    ensures f.asset.None? ==> a == f.image
  {
    if f.asset.Some? then f.asset else f.image
  }

  /** The size variants in order of preference: wide ones for the hero display, medium ones otherwise. */
  function PexelsCandidates(src: PexelsSrc, display: Display): (c: seq<Option<string>>)
    ensures |c| == 4 && c[3] == src.original
  {
    if display == HeroDisplay then [src.landscape, src.large2x, src.large, src.original]
    else [src.medium, src.large, src.small, src.original]
  }

  /**
   * The Pexels URL: none without `src`; otherwise the first truthy candidate,
   * and `original` (whatever it holds) when no candidate is truthy.
   */
  function PexelsUrl(pexels: Option<PexelsImage>, display: Display): (r: Option<string>)
    ensures pexels.None? || pexels.value.src.None? ==> r.None?
    ensures pexels.Some? && pexels.value.src.Some? ==>
      var c := PexelsCandidates(pexels.value.src.value, display);
      && (forall i :: 0 <= i < |c| && Js.Truthy(c[i]) && (forall j :: 0 <= j < i ==> !Js.Truthy(c[j])) ==> r == c[i])
      && ((forall j :: 0 <= j < |c| ==> !Js.Truthy(c[j])) ==> r == pexels.value.src.value.original)
  {
    if pexels.None? || pexels.value.src.None? then None
    else
      var c := PexelsCandidates(pexels.value.src.value, display);
      assert forall i :: (0 <= i < |c| && Js.Truthy(c[i]) && (forall j :: 0 <= j < i ==> !Js.Truthy(c[j]))
                          ==> Js.FirstTruthy(c) == c[i]) by {
        forall i | 0 <= i < |c| && Js.Truthy(c[i]) && (forall j :: 0 <= j < i ==> !Js.Truthy(c[j])) {
          Js.FirstTruthyPicksLeastTruthy(c, i);
        }
      }
      assert (forall j :: 0 <= j < |c| ==> !Js.Truthy(c[j])) ==> Js.FirstTruthy(c) == c[3] by {
        if forall j :: 0 <= j < |c| ==> !Js.Truthy(c[j]) {
          Js.FirstTruthyNoneTruthy(c);
        }
      }
      Js.FirstTruthy(c)
  }

  /** `fields.url || fields.src`. */
  function LegacyUrl(f: ThingFields): (r: Option<string>)
    ensures Js.Truthy(f.url) ==> r == f.url
    ensures !Js.Truthy(f.url) ==> r == f.src
  {
    Js.Or(f.url, f.src)
  }

  /** `asset ?? pexelsUrl ?? legacyUrl`: only a missing value falls through, so "" stops the chain. */
  function Resolved(f: ThingFields, display: Display): (r: Option<AssetArg>)
    ensures AssetOf(f).Some? ==> r == Some(AssetValue(AssetOf(f).value))
    ensures AssetOf(f).None? && PexelsUrl(f.pexelsImage, display).Some? ==>
      r == Some(UrlValue(PexelsUrl(f.pexelsImage, display).value))
    ensures AssetOf(f).None? && PexelsUrl(f.pexelsImage, display).None? ==>
      r == (if LegacyUrl(f).Some? then Some(UrlValue(LegacyUrl(f).value)) else None)
  {
    var asset := AssetOf(f);
    var pexels := PexelsUrl(f.pexelsImage, display);
    var legacy := LegacyUrl(f);
    Js.Nullish(
      if asset.Some? then Some(AssetValue(asset.value)) else None,
      Js.Nullish(if pexels.Some? then Some(UrlValue(pexels.value)) else None,
                 if legacy.Some? then Some(UrlValue(legacy.value)) else None))
  }

  /** The field the inspector highlights: the asset field used, else the first truthy URL source, else "asset". */
  function PresentFieldId(f: ThingFields, display: Display): (id: string)
    ensures id in {"asset", "image", "pexelsImage", "url"}
    ensures id == "image" <==> f.asset.None? && f.image.Some?
    ensures id == "pexelsImage" <==> AssetOf(f).None? && Js.Truthy(PexelsUrl(f.pexelsImage, display))
    ensures id == "url" <==>
      AssetOf(f).None? && !Js.Truthy(PexelsUrl(f.pexelsImage, display)) && Js.Truthy(LegacyUrl(f))
  {
    if AssetOf(f).Some? then (if f.asset.Some? then "asset" else "image")
    else if Js.Truthy(PexelsUrl(f.pexelsImage, display)) then "pexelsImage"
    else if Js.Truthy(LegacyUrl(f)) then "url"
    else "asset"
  }

  /** The wrapper `<div>` with its inspector field and class, around the rendered source. */
  datatype ImageView = ImageView(fieldId: string, wrapperClass: string, content: RenderedAsset)

  /** `ThingImage({ entry, display })` on the live version of the entry; display defaults to "default". */
  function RenderImage(entry: ThingEntry, patches: Preview, display: Option<Display>): (v: ImageView)
    ensures v.wrapperClass == "" <==> display == Some(HeroDisplay)
    ensures v.wrapperClass != "" ==> v.wrapperClass == "rounded-xl overflow-hidden aspect-video"
    ensures v.content == RenderAsset(Resolved(LiveThing(patches, entry).fields, display.GetOr(DefaultDisplay)), None)
    ensures v.fieldId == PresentFieldId(LiveThing(patches, entry).fields, display.GetOr(DefaultDisplay))
  {
    var f := LiveThing(patches, entry).fields;
    var d := display.GetOr(DefaultDisplay);
    ImageView(PresentFieldId(f, d), if d == HeroDisplay then "" else "rounded-xl overflow-hidden aspect-video",
              RenderAsset(Resolved(f, d), None))
  }

  /**
   * An empty Pexels URL shadows a legacy URL: the image renders nothing even
   * though `url` holds an address, while the inspector points at "url".
   */
  lemma EmptyPexelsShadowsLegacy(f: ThingFields, src: PexelsSrc, display: Display)
    requires f.asset.None? && f.image.None?
    requires f.pexelsImage == Some(PexelsImage(Some(src)))
    requires src.original == Some("")
    requires forall j :: 0 <= j < 4 ==> !Js.Truthy(PexelsCandidates(src, display)[j])
    requires Js.Truthy(f.url)
    ensures Resolved(f, display) == Some(UrlValue(""))
    ensures RenderAsset(Resolved(f, display), None) == NoRender
    ensures PresentFieldId(f, display) == "url"
  {
  }

  /** When the inspector points at the Pexels field, the Pexels URL is what renders. */
  lemma PexelsFieldIdMeansPexelsSource(f: ThingFields, display: Display)
    requires PresentFieldId(f, display) == "pexelsImage"
    ensures Resolved(f, display) == Some(UrlValue(PexelsUrl(f.pexelsImage, display).value))
    ensures RenderAsset(Resolved(f, display), None).Img?
  {
  }

  /** A truthy `landscape` variant is the hero source whatever the other sizes hold. */
  lemma HeroPrefersLandscape(src: PexelsSrc)
    requires Js.Truthy(src.landscape)
    ensures PexelsUrl(Some(PexelsImage(Some(src))), HeroDisplay) == src.landscape
  {
    assert PexelsCandidates(src, HeroDisplay)[0] == src.landscape;
  }

  /** The default display takes `medium` when set, else `large`, whatever the wider sizes hold. */
  lemma DefaultPrefersMedium(src: PexelsSrc)
    requires Js.Truthy(src.medium) || Js.Truthy(src.large)
    ensures PexelsUrl(Some(PexelsImage(Some(src))), DefaultDisplay) == if Js.Truthy(src.medium) then src.medium else src.large
  {
    var c := PexelsCandidates(src, DefaultDisplay);
    assert c[0] == src.medium && c[1] == src.large;
    if !Js.Truthy(src.medium) {
      assert forall j :: 0 <= j < 1 ==> !Js.Truthy(c[j]);
    }
  }
}
