/**
 * The CMS entries the composition engine reads, as the components see them
 * (`features/contentful/type.ts` and the fields the components access), and
 * the live-preview patch store that `useContentfulLiveUpdates(x) || x` reads.
 * An absent field is `None`.
 */
module Content {
  import opened Wrappers

  /** `sys`: the entry id and the content-type id (`sys.contentType.sys.id`). */
  datatype Sys = Sys(id: string, contentType: Option<string>)

  /** An asset's `fields.file`. */
  datatype AssetFile = AssetFile(url: Option<string>)

  /** An asset's `fields`. */
  datatype AssetFields = AssetFields(title: Option<string>, file: Option<AssetFile>)

  /** A CMS asset; only its fields are read. */
  datatype Asset = Asset(fields: Option<AssetFields>)

  /** A rich-text document, passed to the rich-text renderer unread. */
  datatype RichText = RichText(document: string)

  /** A linked button entry, spread into the button component unread. */
  datatype ButtonRef = ButtonRef(id: string)

  /** The size variants of a Pexels photo (`pexelsImage.src`). */
  datatype PexelsSrc = PexelsSrc(
    original: Option<string>, large2x: Option<string>, large: Option<string>, medium: Option<string>,
    small: Option<string>, portrait: Option<string>, landscape: Option<string>, tiny: Option<string>)

  /** The `pexelsImage` field. */
  datatype PexelsImage = PexelsImage(src: Option<PexelsSrc>)

  /** One raw element of `nt_experiences`, opaque to this model. */
  datatype ExperienceRef = ExperienceRef(id: string)

  /** The `nt_experiences` field: a list, or some other JSON value. */
  datatype ExperiencesField = ExperienceList(items: seq<ExperienceRef>) | NotAList

  /**
   * The fields a "thing" (callout, image wrapper, Pexels image wrapper, blog
   * post) may carry; each renderer reads its own subset.
   */
  datatype ThingFields = ThingFields(
    title: Option<RichText>, subtitle: Option<RichText>, button: Option<ButtonRef>, media: Option<Asset>,
    asset: Option<Asset>, image: Option<Asset>, pexelsImage: Option<PexelsImage>,
    url: Option<string>, src: Option<string>, experiences: Option<ExperiencesField>)

  /** The `display` mode a frame asks a thing to render in. */
  datatype Display = HeroDisplay | DefaultDisplay

  /** A thing entry. */
  datatype ThingEntry = ThingEntry(sys: Sys, fields: ThingFields)

  /** A linked frame header entry, rendered by the header component unread. */
  datatype HeaderRef = HeaderRef(id: string)

  /** A frame's fields; any of them may be missing while a preview streams in. */
  datatype FrameFields = FrameFields(
    layout: Option<string>, theme: Option<string>, backgroundColor: Option<string>,
    backgroundMedia: Option<Asset>, things: Option<seq<ThingEntry>>,
    gap: Option<string>, padding: Option<string>, alignment: Option<string>,
    dimBackground: Option<string>, tintColor: Option<string>, frameHeader: Option<HeaderRef>)

  /** A frame entry; `fields` itself may be missing. */
  datatype FrameEntry = FrameEntry(sys: Sys, fields: Option<FrameFields>)

  /** A legacy landing-page section (hero banner, call to action, or anything else); `sys` may be missing. */
  datatype SectionEntry = SectionEntry(sys: Option<Sys>)

  /** A landing page's `sections` and `frames`; `frames` is `None` unless it is an array. */
  datatype PageFields = PageFields(sections: Option<seq<SectionEntry>>, frames: Option<seq<FrameEntry>>)

  /** A landing-page entry. */
  datatype PageEntry = PageEntry(sys: Sys, fields: Option<PageFields>)

  /**
   * The live-preview state: the latest patched version of each entry, keyed
   * by entry id. Entries without a patch are served as fetched.
   */
  datatype Preview = Preview(pages: map<string, PageEntry>, frames: map<string, FrameEntry>, things: map<string, ThingEntry>)

  /** The empty store: no preview session. */
  const NoPreview := Preview(map[], map[], map[])

  /** `useContentfulLiveUpdates(entry) || entry` for one entry id. */
  function Live<T>(patches: map<string, T>, id: string, entry: T): T {
    if id in patches then patches[id] else entry
  }

  function LivePage(p: Preview, e: PageEntry): PageEntry { Live(p.pages, e.sys.id, e) }
  function LiveFrame(p: Preview, e: FrameEntry): FrameEntry { Live(p.frames, e.sys.id, e) }
  function LiveThing(p: Preview, e: ThingEntry): ThingEntry { Live(p.things, e.sys.id, e) }

  /** Every patch is stored under its own entry's id. */
  predicate WellKeyed(p: Preview) {
    && (forall k :: k in p.pages ==> p.pages[k].sys.id == k)
    && (forall k :: k in p.frames ==> p.frames[k].sys.id == k)
    && (forall k :: k in p.things ==> p.things[k].sys.id == k)
  }

  /** Applying the hook again to a live entry changes nothing (the renderers nest it). */
  lemma LiveThingIdempotent(p: Preview, e: ThingEntry)
    requires WellKeyed(p)
    ensures LiveThing(p, LiveThing(p, e)) == LiveThing(p, e)
  {
  }

  /** A patch for another id leaves an entry as it was fetched. */
  lemma PatchForOtherIdIgnored(p: Preview, e: ThingEntry, other: ThingEntry)
    requires other.sys.id != e.sys.id
    ensures LiveThing(p.(things := p.things[other.sys.id := other]), e) == LiveThing(p, e)
  {
  }
}
