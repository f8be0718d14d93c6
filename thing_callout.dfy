/**
 * The callout thing (`features/contentful/components/frame/things/Callout.tsx`):
 * which of title, subtitle, media and button render in each display mode.
 */
module ThingCallout {
  import opened Wrappers
  import opened Content
  import opened FrameUtils

  /** The card class of the default display. */
  const CardClass := "rounded-2xl shadow-sm"

  datatype CalloutView =
      /** Centred title, subtitle and button; never media. */
    | HeroCallout(title: Option<RichText>, subtitle: Option<RichText>, button: Option<ButtonRef>)
      /** A card with header (title, subtitle), content (media) and footer (button). */
    | CardCallout(cardClass: string, title: Option<RichText>, subtitle: Option<RichText>,
                  media: Option<RenderedAsset>, button: Option<ButtonRef>)

  /** `ThingCallout({ entry, display })` on the live version of the entry; display defaults to "default". */
  function RenderCallout(entry: ThingEntry, patches: Preview, display: Option<Display>): (v: CalloutView)
    ensures v.HeroCallout? <==> display == Some(HeroDisplay)
    ensures v.title == LiveThing(patches, entry).fields.title
    ensures v.subtitle == LiveThing(patches, entry).fields.subtitle
    ensures v.button == LiveThing(patches, entry).fields.button
    ensures v.CardCallout? ==> v.cardClass == CardClass
    ensures v.CardCallout? ==> (v.media.Some? <==> LiveThing(patches, entry).fields.media.Some?)
    ensures v.CardCallout? && LiveThing(patches, entry).fields.media.Some? ==>
      v.media == Some(RenderAsset(Some(AssetValue(LiveThing(patches, entry).fields.media.value)), None))
  {
    var f := LiveThing(patches, entry).fields;
    if display.GetOr(DefaultDisplay) == HeroDisplay then
      HeroCallout(f.title, f.subtitle, f.button)
    else
      CardCallout(CardClass, f.title, f.subtitle,
                  if f.media.Some? then Some(RenderAsset(Some(AssetValue(f.media.value)), None)) else None,
                  f.button)
  }

  /** The hero display does not depend on the media field at all. */
  lemma HeroIgnoresMedia(entry: ThingEntry, media: Option<Asset>)
    ensures RenderCallout(entry.(fields := entry.fields.(media := media)), NoPreview, Some(HeroDisplay))
         == RenderCallout(entry, NoPreview, Some(HeroDisplay))
  {
  }

  /** A card's media slot, when present, shows an image or the placeholder, never nothing. */
  lemma CardMediaAlwaysShows(entry: ThingEntry, patches: Preview, display: Option<Display>)
    requires display != Some(HeroDisplay)
    requires LiveThing(patches, entry).fields.media.Some?
    ensures RenderCallout(entry, patches, display).media.Some?
    ensures RenderCallout(entry, patches, display).media.value != NoRender
  {
  }
}
