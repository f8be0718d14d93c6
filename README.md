# Locale routing and content composition of a Contentful-backed Next.js site

This project is a Dafny model of the request-time and render-time logic of a
Next.js site whose pages come from the Contentful CMS. It covers three parts.

- **Locale routing.** The locale registry is derived from the CMS locale list
  (`getI18nConfig`). The middleware picks a locale and either lets a request
  through or redirects it to a locale-prefixed path. The route matcher keeps
  some paths away from the middleware. The locale picker rewrites the locale
  segment of the current path and reads it back.
- **Content composition.** A landing page renders its frames, then its legacy
  sections. A frame applies field defaults, builds its class list from the
  style-token tables, and places its "things" in a hero, duplex or stacked
  body. A thing is dispatched by content type to the callout, image or blog-post
  renderer, optionally through a personalization experience. The image thing
  resolves its source from an asset, a Pexels variant or a legacy URL. The
  person view model, the asset URL and the link URL helpers are included.
- **Slug pagination.** `getAllPageSlugs` pages through the CMS. The fetch
  helpers turn errors into empty lists.

Components are modelled as functions that return a description of the
element tree they render (`FrameView`, `ThingOutput`, `PageItem`, …). The
output of components outside this model, such as the frame header, the
blog-post card and rich-text documents, is left as opaque references.
JavaScript's `||`, `??`, truthiness and template interpolation (`undefined`
prints as "undefined") are written out in module `Js`. The live-preview hook
`useContentfulLiveUpdates(x) || x` is a lookup in a `Preview` store of
patched entries keyed by entry id. The CMS, the Accept-Language matcher and the
personalization SDK are parameters.

Two behaviours of the code are proved rather than assumed away:

- When the registry lists "en-US", the default locale is "en", which need not be
  listed. A visitor whose language matches no listed locale is then redirected
  to `/en/...`. That path is again unlocalized, so the next request redirects
  again (`Middleware.UnlistedDefaultRedirectLoop`).
- Whether the redirect target counts as localized depends on the chosen locale
  being listed (`Middleware.RedirectTargetIsLocalized`).

## Model

| member | source | states |
|---|---|---|
| `I18nConfig.Codes` | i18n-config.ts:23 | the locale list has one code per fetched locale, in fetched order |
| `I18nConfig.GetI18nConfig` | i18n-config.ts:20-29 | locales are the fetched codes; the default is "en" when "en-US" is listed, else the first code, and absent for an empty list |
| `I18nConfig.GetLocales` | i18n-config.ts:35-46 | a non-OK response fails with "Failed to fetch locales: " and the status text; an OK body without `items` gives no locales |
| `I18nConfig.LoadI18nConfig` | i18n-config.ts:20-46 | fails exactly when the locale response is not OK, with the "Failed to fetch locales: " message; otherwise the registry derived from the response's items, or from none |
| `I18nConfig.DefaultListedIff` | i18n-config.ts:26 | the default is one of the locales exactly when the list is non-empty and either lacks "en-US" or also holds "en" |
| `I18nConfig.DefaultNotAlwaysListed` | i18n-config.ts:26-27 | the registry ["en-US", "de"] has default "en", which is not in its list |
| `Middleware.IsMissingLocaleIff` | middleware.ts:28-30 | the `every` walk holds exactly when no listed locale L has the path equal to `/L` or starting with `/L/` |
| `Middleware.RedirectTarget` | middleware.ts:35 | the target starts with `/locale/` and continues with the path minus its leading slash, or the whole path when it has none |
| `Middleware.GetLocale` | middleware.ts:17-19 | the chosen locale is the matcher's answer when truthy, otherwise the default locale |
| `Middleware.ChosenLocaleListedOrDefault` | middleware.ts:17-19 | a matcher answering with a listed locale, the default or nothing yields a locale that is listed or is the default |
| `Middleware.Decide` | middleware.ts:28-39 | pass-through exactly when some listed locale prefixes the path; otherwise a redirect to the target for the chosen locale |
| `Middleware.Middleware` | middleware.ts:22-40 | fails exactly when either registry load fails; otherwise decides with the second load's locale list and the locale chosen from the first load |
| `Middleware.RedirectTargetIsLocalized` | middleware.ts:29-35 | when the chosen locale is listed, the redirect target itself passes through |
| `Middleware.LocalePrefixNeedsSegmentBoundary` | middleware.ts:28-30 | `/en-USA` is redirected to `/en-US/en-USA`, while `/en-US` and `/en-US/blog` pass |
| `Middleware.UnlistedDefaultRedirectLoop` | middleware.ts:17-35 | with registry ["en-US", "de"] and no match, any rooted path under neither locale redirects to `/en` + path, which is again under neither |
| `Middleware.HandleRequest` | middleware.ts:42-45 | paths the matcher excludes pass untouched; all others go through the middleware |
| `Middleware.ReachingPathsAvoidPatterns` | middleware.ts:44 | a path that reaches the middleware starts with "/" and, after it, with none of the excluded patterns read literally |
| `Middleware.ExcludedPrefixNeverReaches` | middleware.ts:44 | "/" followed by any excluded pattern and then anything at all never reaches the middleware |
| `Middleware.MatcherExclusions` | middleware.ts:44 | `/api/...`, `/apiary`, `/setup-guide`, `/_next/static/...`, `/favicon.ico` and `/favicon-ico` are excluded; `/blog/api` and `/` are not |
| `LocaleSwitcher.SetSegmentOne` | features/locale-switching/locale-switcher.tsx:27 | index 1 becomes the locale, or the locale is appended to a one-element array; all other segments are kept |
| `LocaleSwitcher.RedirectedPathname` | features/locale-switching/locale-switcher.tsx:24-29 | an absent or empty pathname gives "/"; the rewritten path always contains a "/" |
| `LocaleSwitcher.CurrentLocale` | features/locale-switching/locale-switcher.tsx:35-37 | the current locale is never empty and holds no "/"; it is segment 1 of the path exactly when that segment exists and is non-empty, and the fallback "en-US" otherwise |
| `LocaleSwitcher.RedirectedSegments` | features/locale-switching/locale-switcher.tsx:24-29 | splitting the rewritten path on "/" gives the old segments with segment 1 set to the locale |
| `LocaleSwitcher.RedirectKeepsOtherSegments` | features/locale-switching/locale-switcher.tsx:26-28 | the segment count is kept when it is at least 2, and every segment other than index 1 is unchanged |
| `LocaleSwitcher.CurrentLocaleAfterRedirect` | features/locale-switching/locale-switcher.tsx:24-37 | for a non-empty path and a non-empty locale without "/", the locale read back from the rewritten path is that locale |
| `LocaleSwitcher.CurrentLocaleWithoutPathname` | features/locale-switching/locale-switcher.tsx:25-37 | an absent pathname gives "/", which reads back as "en-US" |
| `LocaleSwitcher.RedirectExamples` | features/locale-switching/locale-switcher.tsx:24-29 | "/" becomes "/fr", "/es/blog/x" becomes "/fr/blog/x", "abc" becomes "abc/fr" |
| `Strings.JoinSplit` | features/locale-switching/locale-switcher.tsx:26-28 | joining the parts of a split string gives the string back |
| `Strings.SplitJoin` | features/locale-switching/locale-switcher.tsx:26-28 | splitting a join of separator-free parts gives the parts back |
| `LibUtils.ExtractContentfulAssetUrl` | lib/utils.ts:14-18 | the result is "" exactly when the asset has no non-empty file URL, and that URL otherwise |
| `LibUtils.ExtractUrlFromTarget` | lib/utils.ts:20-46 | landing pages map to "/" for slug homepage or home and to "/" + slug otherwise; blog posts to "/blog/" + slug; external links to their url; anything else to "" |
| `LibUtils.LandingPageRootIff` | lib/utils.ts:24-31 | a landing page links to "/" exactly for the slugs "homepage", "home" and "" |
| `LibUtils.InternalLinksAreRooted` | lib/utils.ts:24-37 | landing-page and blog-post links always start with "/" |
| `FrameUtils.TruthyClasses` | features/contentful/components/frame/utils.ts:7 | the kept classes are all non-empty and no more than the arguments; with the two lemmas below this fixes the result |
| `FrameUtils.TruthyClassesSingle` | features/contentful/components/frame/utils.ts:7 | one argument is kept exactly when it is truthy |
| `FrameUtils.TruthyClassesAppend` | features/contentful/components/frame/utils.ts:7 | filtering a concatenation keeps the survivors of each half, in order |
| `FrameUtils.Cx` | features/contentful/components/frame/utils.ts:6-8 | when some class is kept and no kept class holds a space, splitting the result on spaces gives back exactly the kept classes, in order |
| `FrameUtils.CxAppend` | features/contentful/components/frame/utils.ts:6-8 | `cx` of a concatenation is the two halves' results joined by one space, or whichever is non-empty |
| `FrameUtils.CxSingle` | features/contentful/components/frame/utils.ts:6-8 | `cx` of one argument is that argument when truthy and "" otherwise |
| `FrameUtils.CxEmptyIff` | features/contentful/components/frame/utils.ts:6-8 | `cx` gives "" exactly when no argument is truthy |
| `FrameUtils.OpacityFromDim` | features/contentful/components/frame/utils.ts:11-26 | "10" to "50" map to themselves and anything else to "30"; the result is always a valid level |
| `FrameUtils.OverlayFromOptions` | features/contentful/components/frame/utils.ts:31-42 | a brand tint gives `bg-{tint}/{op} mix-blend-multiply`; black, none or unset give `bg-black/{op}` |
| `FrameUtils.TextClassFromBgColor` | features/contentful/components/frame/utils.ts:46-63 | fixed tokens for the four known colours; otherwise text-white for dark, text-black for light, text-foreground for any other theme |
| `FrameUtils.SurfaceToken` | features/contentful/components/frame/utils.ts:64-84 | every surface starts with "bg-"; a brand colour gives "bg-" + colour, neutral gives "bg-background", a transparent or unknown colour "bg-transparent" |
| `FrameUtils.ThemeText` | features/contentful/components/frame/utils.ts:80 | text-white for dark, text-black for light, text-primary-foreground for any other theme |
| `FrameUtils.BgClass` | features/contentful/components/frame/utils.ts:64-84 | every class starts with "bg-"; a brand or neutral colour pairs its surface token with its own foreground token (`getTextClassFromBgColor`); a transparent or unknown colour gives "bg-transparent " followed by the theme text token |
| `FrameUtils.BgClassCarriesImageTextToken` | features/contentful/components/frame/utils.ts:46-84 | the surface class ends with the image text token exactly unless the colour is transparent or unknown and the theme is neither dark nor light |
| `FrameUtils.OverlayClass` | features/contentful/components/frame/utils.ts:87-102 | fixed tints for primary, secondary, accent and neutral; anything else gives the plain 30% black dim |
| `FrameUtils.GapClass` | features/contentful/components/frame/utils.ts:104-117 | every class starts with "gap-"; sm, md, lg and xl give gap-4, gap-6, gap-8 and gap-12, and an unknown or missing gap gives gap-6, the md class |
| `FrameUtils.GapClassInjective` | features/contentful/components/frame/utils.ts:104-117 | distinct known gaps give distinct classes |
| `FrameUtils.PaddingClass` | features/contentful/components/frame/utils.ts:119-137 | every class is `px-4 sm:px-6 md:px-8 ` followed by the vertical step: none py-0, sm py-8, md py-12, lg py-16, xl py-24, xxl py-32, and py-12 (the md class) for an unknown or missing padding |
| `FrameUtils.PaddingClassInjective` | features/contentful/components/frame/utils.ts:119-137 | distinct known paddings give distinct classes |
| `FrameUtils.LayoutClass` | features/contentful/components/frame/utils.ts:139-156 | the full table: duplex is `grid grid-cols-1 md:grid-cols-2`, grid is `grid grid-cols-1 sm:grid-cols-2 lg:grid-cols-3`, carousel is `flex overflow-x-auto snap-x snap-mandatory`, list is `flex flex-col`, and single, hero and unknown layouts are `grid grid-cols-1`; only carousel and list are flex |
| `FrameUtils.RenderAsset` | features/contentful/components/frame/utils.ts:160-192 | nothing for a missing asset or empty URL string; the placeholder for an asset without a URL; otherwise an image whose source is the URL with "https:" put in front exactly when it starts with "//" (so never protocol-relative), with the title or "" as alt text and the default classes |
| `Frame.Resolve` | features/contentful/components/frame/frame.tsx:36-52 | missing fields take the defaults single, light, neutral, md, md, left; missing things give an empty list; background media, dim and tint pass through unchanged |
| `Frame.AlignClass` | features/contentful/components/frame/frame.tsx:57-61 | text-center exactly for center, text-right exactly for right, text-left for anything else |
| `Frame.ContainerClass` | features/contentful/components/frame/frame.tsx:54-64 | the container is the surface class, the padding class and the alignment class, space-separated |
| `Frame.SectionClass` | features/contentful/components/frame/frame.tsx:70-84 | with background media, bg-transparent follows the surface tokens, text-white is added exactly for a transparent colour, and the image text token comes last; without media the section is the container |
| `Frame.DuplexSlots` | features/contentful/components/frame/frame.tsx:188-218 | the two columns hold the header and first thing when a header exists, and the first two things otherwise, each once |
| `Frame.AssignDuplexSlots` | features/contentful/components/frame/frame.tsx:188-218 | the assignment with its tmp swap ends in the closed-form slots |
| `Frame.StackItems` | features/contentful/components/frame/frame.tsx:249-262 | one thing element per thing, in document order, without a display |
| `Frame.RenderFrame` | features/contentful/components/frame/frame.tsx:29-102 | background media yields a rendered image (never nothing) in cover style and the overlay from the dim and tint options; section class and body follow from the resolved fields |
| `Frame.MissingFieldsAreDefaults` | features/contentful/components/frame/frame.tsx:36-52 | a frame without fields renders exactly like one spelling out the defaults |
| `Frame.FrameBody` | features/contentful/components/frame/frame.tsx:103-265 | hero exactly for the hero layout, holding at most the first thing in hero display, with the badge exactly without media in a dev build; duplex exactly for the duplex layout, with the closed-form slots and the fixed duplex grid classes followed by the gap class; every other layout stacks all things in document order without a display, under the layout class, the gap class and `gap-y-10` |
| `Frame.DuplexHeaderIgnoresSecondThing` | features/contentful/components/frame/frame.tsx:191-199 | with a header the second thing never shows, and alignment alone orders header and first thing |
| `Frame.DuplexImagePrefersRight` | features/contentful/components/frame/frame.tsx:200-214 | without a header and not right-aligned, an image first thing ends on the right |
| `Frame.DuplexSwapLooksAtFirstOnly` | features/contentful/components/frame/frame.tsx:200-217 | right-aligned callout then image puts the image on the left; two images always end as second, first |
| `Frame.DuplexPlainKeepsOrder` | features/contentful/components/frame/frame.tsx:200-217 | with no header, an alignment other than "right" and a first thing that is not an image, the first thing goes left and the second right |
| `ThingCallout.RenderCallout` | features/contentful/components/frame/things/Callout.tsx:14-85 | hero display exactly when asked; title, subtitle and button come from the live entry; the card always has `rounded-2xl shadow-sm` and shows media exactly when present, as `renderAsset` of the live media with no class |
| `ThingCallout.HeroIgnoresMedia` | features/contentful/components/frame/things/Callout.tsx:29-51 | the hero rendering does not change with the media field |
| `ThingCallout.CardMediaAlwaysShows` | features/contentful/components/frame/things/Callout.tsx:69-75 | a card with media shows an image or the placeholder, never nothing |
| `ThingImage.AssetOf` | features/contentful/components/frame/things/Image.tsx:35-36 | the asset field, else the image field |
| `ThingImage.PexelsUrl` | features/contentful/components/frame/things/Image.tsx:55-62 | none without `src`; otherwise the first truthy size in the display's preference order, and `original` when none is truthy |
| `ThingImage.HeroPrefersLandscape` | features/contentful/components/frame/things/Image.tsx:59 | a truthy landscape variant is the hero source |
| `ThingImage.DefaultPrefersMedium` | features/contentful/components/frame/things/Image.tsx:61 | the default display takes medium when truthy, else large |
| `ThingImage.LegacyUrl` | features/contentful/components/frame/things/Image.tsx:64-66 | `url` when truthy, else `src` |
| `ThingImage.Resolved` | features/contentful/components/frame/things/Image.tsx:68 | the asset, else a present Pexels URL (even ""), else the legacy URL |
| `ThingImage.PresentFieldId` | features/contentful/components/frame/things/Image.tsx:70-78 | asset or image for the asset used, pexelsImage for a truthy Pexels URL, url for a truthy legacy URL, else asset |
| `ThingImage.RenderImage` | features/contentful/components/frame/things/Image.tsx:79-88 | the wrapper class is empty exactly in hero display; the content is the resolved source rendered with the default classes |
| `ThingImage.EmptyPexelsShadowsLegacy` | features/contentful/components/frame/things/Image.tsx:55-78 | an empty Pexels URL wins over a legacy URL, so nothing renders while the inspector points at url |
| `ThingImage.PexelsFieldIdMeansPexelsSource` | features/contentful/components/frame/things/Image.tsx:68-78 | when the inspector names pexelsImage, the Pexels URL is the rendered image |
| `Things.ThingView` | features/contentful/components/frame/things/index.tsx:24-52 | no or empty content type renders nothing; callout, image wrappers and blog post go to their renderers with the display forwarded to callout and image and the live entry handed to the blog-post renderer; any other type renders nothing and warns with exactly "Unsupported Thing content type: " followed by the type, as console.warn joins its two arguments with a space |
| `Things.FilterMap` | features/contentful/components/frame/things/index.tsx:64-68 | the mapped experiences are non-empty exactly when some item passes the filter, and each is the image of a passing item |
| `Things.FilterMapSingle` | features/contentful/components/frame/things/index.tsx:64-68 | one item is mapped exactly when it passes the filter |
| `Things.FilterMapAppend` | features/contentful/components/frame/things/index.tsx:64-68 | filtering and mapping a concatenation keeps each half's mapped survivors, in order |
| `Things.ExperienceItems` | features/contentful/components/frame/things/index.tsx:62-68 | a missing or non-array `nt_experiences` yields no experiences; an array yields its own items |
| `Things.RenderThing` | features/contentful/components/frame/things/index.tsx:54-87 | personalized exactly when some experience passes the filter, with the entry id, the display defaulting to "default" and exactly the filtered, mapped experiences; otherwise a direct thing view |
| `Things.NonArrayExperiencesRenderDirectly` | features/contentful/components/frame/things/index.tsx:62-86 | a non-array `nt_experiences` always renders directly |
| `Things.UnknownTypeRendersNothing` | features/contentful/components/frame/things/index.tsx:48-50 | every truthy content type other than callout, imageWrapper, pexelsImageWrapper and blogPost renders nothing, with the warning "Unsupported Thing content type: " followed by that type |
| `LandingPage.SectionItem` | features/contentful/components/contentful-landing-page.tsx:49-88 | a placeholder carrying the type exactly when the type is neither heroBanner nor cta; otherwise that renderer with the section |
| `LandingPage.SectionWarning` | features/contentful/components/contentful-landing-page.tsx:55-58 | a warning exactly for an unmapped section, and its text is exactly "No component found for content type: " followed by the type as interpolated (pinned by prefix, length and suffix) |
| `LandingPage.SectionItems` | features/contentful/components/contentful-landing-page.tsx:49-89 | one output per section, in document order |
| `LandingPage.FrameItems` | features/contentful/components/contentful-landing-page.tsx:44-47 | one rendered frame per frame, in document order |
| `LandingPage.Warnings` | features/contentful/components/contentful-landing-page.tsx:49-58 | at most one warning per section, none exactly when every section is mapped, each starting with the missing-component prefix |
| `LandingPage.WarningsSingle` | features/contentful/components/contentful-landing-page.tsx:55-58 | one section logs exactly its own warning, or nothing when it is mapped |
| `LandingPage.WarningsAppend` | features/contentful/components/contentful-landing-page.tsx:49-58 | the warnings of consecutive runs of sections are logged one run after the other, in document order |
| `LandingPage.RenderLandingPage` | features/contentful/components/contentful-landing-page.tsx:33-92 | the frames' outputs followed by the sections' outputs, with one warning per unmapped section |
| `LandingPage.FramesBeforeSections` | features/contentful/components/contentful-landing-page.tsx:43-89 | every frame output precedes every section output, and section i gives output number frames + i |
| `LandingPage.WarningsCountPlaceholders` | features/contentful/components/contentful-landing-page.tsx:55-67 | one warning is logged per placeholder |
| `Person.DisplayName` | features/contentful/components/person/person-wrapper.tsx:8 | the first name, one space, then the last name, with a missing part spelled "undefined" |
| `Person.DisplayNameSplitsBack` | features/contentful/components/person/person-wrapper.tsx:8 | a name from space-free parts splits on " " into exactly those parts |
| `Person.Bio` | features/contentful/components/person/person-wrapper.tsx:11 | the bio when truthy, else "" |
| `Person.WebsiteOf` | features/contentful/components/person/person-wrapper.tsx:14 | the linked url when truthy, else "/"; never empty |
| `Person.RenderPerson` | features/contentful/components/person/person-wrapper.tsx:17-27 | inline exactly when flagged, with name and website; otherwise a card with name and bio |
| `Person.MissingFieldsPerson` | features/contentful/components/person/person-wrapper.tsx:8-14 | an entry without fields is "undefined undefined" with website "/" and an empty bio |
| `Content.LiveThingIdempotent` | features/contentful/components/frame/things/index.tsx:61 | applying the live-update hook to an already live entry changes nothing |
| `Content.PatchForOtherIdIgnored` | features/contentful/components/frame/things/index.tsx:61 | a live patch for another entry id does not change what an entry renders from |
| `ContentfulClient.GetEntries` | lib/contentful.ts:16-30 | the items on success, none on error |
| `ContentfulClient.GetLocales` | lib/contentful.ts:36-49 | one locale per CMS locale, keeping code, name and default; none on error |
| `ContentfulClient.CeilDiv` | lib/contentful.ts:64 | the page count covers the total and no page beyond the last is counted |
| `ContentfulClient.PageCount` | lib/contentful.ts:64 | no pages for a zero limit; otherwise the least page count whose pages cover the total |
| `ContentfulClient.SlugsUpToSucceedsIff` | lib/contentful.ts:65-78 | a run of pages succeeds exactly when every one of its page requests succeeds |
| `ContentfulClient.AllPageSlugs` | lib/contentful.ts:51-85 | nothing when the first request fails or when any page request up to the page count fails |
| `ContentfulClient.GetAllPageSlugs` | lib/contentful.ts:51-85 | the paging loop returns every page's slugs in page order, or nothing when any request fails |
| `ContentfulClient.FailureSticks` | lib/contentful.ts:65-84 | once a page request fails, the whole run fails |
| `ContentfulClient.HonestPagingReturnsList` | lib/contentful.ts:59-80 | a CMS that serves windows of one list returns exactly that list, in order |

## Left out

- The Accept-Language negotiation (`Negotiator` and the locale matcher) is foreign code. Its answer is the parameter `matched`.
- The header-copy loop of `getLocale` is plumbing and is not modelled.
- The locale fetch, the CMS clients, `process.env` reads and the client choice by preview mode are I/O. Each response is a parameter.
- `Middleware.ReachesMiddleware`: models the matcher's regular expression as a case-sensitive prefix test on the path after its first "/". How the framework compiles the matcher (anchoring, case, trailing slashes) is not modelled.
- The redirect is built with `new URL(path, request.url)`. Its path component is modelled; the query string of the original request is dropped by that call, and the host is not modelled.
- `LandingPage.SectionItem`: the map lookup is the closed set {heroBanner, cta}. The source's `in` test also accepts property names inherited from `Object.prototype`. Such a name then selects an inherited function as the component: "toString" renders the text it returns, while names such as "constructor", "valueOf" or "hasOwnProperty" make rendering throw.
- The live-preview and inspector hooks are not modelled. The live-update hook is a lookup in a `Preview` store of patched entries. The inspector props are modelled only as the image thing's field id.
- The personalization SDK's `isExperienceEntry`, `mapExperience` and `Experience` component are parameters. What a variant renders is not modelled.
- The frame header, the blog-post card, the hero-banner and call-to-action renderers, and rich-text rendering are foreign renderers, kept as opaque references. The same holds for animations (`FadeIn`, `Stagger`) and `cn`.
- The `NODE_ENV` check is the boolean parameter `devMode`.
- Thing entries always carry `fields`. The callout renderer reads `live.fields.title` unguarded and would throw without them.
- `ContentfulClient.GetAllPageSlugs`: requires that a first response with limit 0 reports total 0. With limit 0 and a positive total the page count is infinite and the loop never ends.
- Each slug item is assumed to carry a string slug. The source casts the value without checking it.
- The locale picker's React state and the list of locales it shows are UI state and are not modelled.
- The setup form, the error page, the footer and the provider wrappers are UI-only.
- The type declarations are reflected only in the datatypes.
