/** The pure helpers of `lib/utils.ts`: the asset URL and the URL of a link target. */
module LibUtils {
  import opened Wrappers
  import opened Strings
  import Js
  import opened Content

  /** A link target's fields: the page or post `slug`, the external link's `url`. */
  datatype LinkFields = LinkFields(slug: Option<string>, url: Option<string>)

  /** A link target: a landing page, a blog post or an external link; `sys` may be missing. */
  datatype LinkTarget = LinkTarget(sys: Option<Sys>, fields: Option<LinkFields>)

  /** The file URL of an asset, when it has a non-empty one. */
  function AssetFileUrl(image: Option<Asset>): Option<string> {
    if image.Some? && image.value.fields.Some? && image.value.fields.value.file.Some?
    then image.value.fields.value.file.value.url
    else None
  }

  /** `extractContentfulAssetUrl`: the file URL, or "" when there is none. */
  function ExtractContentfulAssetUrl(image: Option<Asset>): (url: string)
    ensures url == "" <==> !Js.Truthy(AssetFileUrl(image))
    ensures url != "" ==> Some(url) == AssetFileUrl(image)
  {
    Js.OrElse(AssetFileUrl(image), "")
  }

  function ContentTypeOf(target: Option<LinkTarget>): Option<string> {
    if target.Some? && target.value.sys.Some? then target.value.sys.value.contentType else None
  }

  function SlugOf(target: Option<LinkTarget>): Option<string> {
    if target.Some? && target.value.fields.Some? then target.value.fields.value.slug else None
  }

  function UrlOf(target: Option<LinkTarget>): Option<string> {
    if target.Some? && target.value.fields.Some? then target.value.fields.value.url else None
  }

  /** `extractUrlFromTarget`: the site path or external URL a link points to. */
  function ExtractUrlFromTarget(target: Option<LinkTarget>): (url: string)
    ensures ContentTypeOf(target) == Some("landingPage") ==>
      url == if SlugOf(target) in {Some("homepage"), Some("home")} then "/" else "/" + Js.Interp(SlugOf(target))
    ensures ContentTypeOf(target) == Some("blogPost") ==> url == "/blog/" + Js.Interp(SlugOf(target))
    ensures ContentTypeOf(target) == Some("externalLink") ==> url == Js.Interp(UrlOf(target))
    ensures ContentTypeOf(target) !in {Some("landingPage"), Some("blogPost"), Some("externalLink")} ==> url == ""
  {
    var contentType := ContentTypeOf(target);
    if contentType == Some("landingPage") then
      if SlugOf(target) == Some("homepage") || SlugOf(target) == Some("home") then "/"
      else "/" + Js.Interp(SlugOf(target))
    else if contentType == Some("blogPost") then "/blog/" + Js.Interp(SlugOf(target))
    else if contentType == Some("externalLink") then Js.Interp(UrlOf(target))
    else ""
  }

  /** A landing page links to the site root exactly for the slugs "homepage", "home" and "". */
  lemma LandingPageRootIff(target: Option<LinkTarget>)
    requires ContentTypeOf(target) == Some("landingPage")
    ensures ExtractUrlFromTarget(target) == "/" <==> SlugOf(target) in {Some("homepage"), Some("home"), Some("")}
  {
    var slug := SlugOf(target);
    if slug.None? {
      assert ExtractUrlFromTarget(target) == "/undefined";
    } else if slug.value !in {"homepage", "home"} {
      assert ExtractUrlFromTarget(target) == "/" + slug.value;
      assert |"/" + slug.value| == 1 + |slug.value|;
    }
  }

  /** Internal targets (pages and posts) always give a rooted path; anything unknown gives "". */
  lemma InternalLinksAreRooted(target: Option<LinkTarget>)
    requires ContentTypeOf(target) in {Some("landingPage"), Some("blogPost")}
    ensures StartsWith(ExtractUrlFromTarget(target), "/")
  {
  }
}
