/**
 * The request-time locale middleware of `middleware.ts`: which paths reach it,
 * which locale it picks, and whether it redirects or lets the request through.
 * It never rewrites, never strips a default-locale prefix, and a failed locale
 * fetch makes it throw.
 */
module Middleware {
  import opened Wrappers
  import opened Strings
  import Js
  import opened I18nConfig

  /** What the middleware returns: nothing (the request continues) or a redirect to a path. */
  datatype Outcome = PassThrough | Redirect(target: string)

  /** The path is `/L` or starts with `/L/`; so `/en-USA` is not under `en-US`. */
  predicate HasLocalePrefix(path: string, locale: string) {
    StartsWith(path, "/" + locale + "/") || path == "/" + locale
  }

  /** `locales.every(locale => !pathname.startsWith(`/${locale}/`) && pathname !== `/${locale}`)`. */
  function IsMissingLocale(locales: seq<string>, path: string): bool {
    if |locales| == 0 then true
    else !HasLocalePrefix(path, locales[0]) && IsMissingLocale(locales[1..], path)
  }

  /** The `every` walk agrees with its quantified reading. */
  lemma {:induction false} IsMissingLocaleIff(locales: seq<string>, path: string)
    ensures IsMissingLocale(locales, path)
      <==> forall i :: 0 <= i < |locales| ==> !HasLocalePrefix(path, locales[i])
  {
    if |locales| > 0 {
      IsMissingLocaleIff(locales[1..], path);
      assert forall i :: 1 <= i < |locales| ==> locales[i] == locales[1..][i - 1];
    }
  }

  /**
   * `/${locale}${pathname.startsWith("/") ? "" : "/"}${pathname}`: the locale
   * segment followed by the path, with exactly one slash between them.
   */
  function RedirectTarget(locale: string, path: string): (t: string)
    ensures StartsWith(t, "/" + locale + "/")
    ensures t[|locale| + 2..] == if StartsWith(path, "/") then path[1..] else path
  {
    var t := "/" + locale + (if StartsWith(path, "/") then "" else "/") + path;
    if StartsWith(path, "/") then
      assert path == "/" + path[1..];
      assert t == "/" + locale + "/" + path[1..];
      t
    else
      t
  }

  /** `getLocale` after negotiation: the matcher's result when truthy, otherwise the default locale. */
  function GetLocale(config: Config, matched: Option<string>): (chosen: Option<string>)
    ensures Js.Truthy(matched) ==> chosen == matched
    ensures !Js.Truthy(matched) ==> chosen == config.defaultLocale
  {
    Js.Or(matched, config.defaultLocale)
  }

  /** A matcher that answers with a listed locale or the default makes the chosen locale listed or the default. */
  lemma ChosenLocaleListedOrDefault(config: Config, matched: Option<string>)
    requires matched.None? || matched == config.defaultLocale || matched.value in config.locales || matched.value == ""
    ensures var chosen := GetLocale(config, matched);
      chosen == config.defaultLocale || (chosen.Some? && chosen.value in config.locales)
  {
  }

  /** The decision once the locale list and the chosen locale are known. */
  function Decide(locales: seq<string>, locale: Option<string>, path: string): (o: Outcome)
    ensures o == PassThrough <==> exists i :: 0 <= i < |locales| && HasLocalePrefix(path, locales[i])
    ensures o != PassThrough ==> o == Redirect(RedirectTarget(Js.Interp(locale), path))
  {
    IsMissingLocaleIff(locales, path);
    if IsMissingLocale(locales, path) then Redirect(RedirectTarget(Js.Interp(locale), path))
    else PassThrough
  }

  /**
   * `middleware(request)`: `getLocale` loads the registry once (`first`) and
   * the middleware loads it again (`second`); either failure throws. `matched`
   * is what the external matcher returned for the request's Accept-Language.
   */
  function Middleware(first: LocalesResponse, second: LocalesResponse, matched: Option<string>, path: string)
    : (r: Result<Outcome, string>)
    ensures r.Failure? <==> !first.ok || !second.ok
    ensures first.ok && second.ok ==>
      var chosen := GetLocale(GetI18nConfig(first.items.GetOr([])), matched);
      var locales := Codes(second.items.GetOr([]));
      r == Success(Decide(locales, chosen, path))
  {
    match LoadI18nConfig(first)
    case Failure(e) => Failure(e)
    case Success(config) =>
      var locale := GetLocale(config, matched);
      match LoadI18nConfig(second)
      case Failure(e) => Failure(e)
      case Success(again) => Success(Decide(again.locales, locale, path))
  }

  /** A redirect target built from a listed locale is itself classified as localized. */
  lemma {:induction false} RedirectTargetIsLocalized(locales: seq<string>, chosen: string, path: string, next: Option<string>)
    requires chosen in locales
    ensures Decide(locales, next, RedirectTarget(chosen, path)) == PassThrough
  {
    var i :| 0 <= i < |locales| && locales[i] == chosen;
    assert HasLocalePrefix(RedirectTarget(chosen, path), locales[i]);
  }

  /** `/en-USA` is not under `en-US`, so it is redirected, while `/en-US/blog` passes. */
  lemma LocalePrefixNeedsSegmentBoundary()
    ensures Decide(["en-US"], Some("en-US"), "/en-USA") == Redirect("/en-US/en-USA")
    ensures Decide(["en-US"], Some("en-US"), "/en-US") == PassThrough
    ensures Decide(["en-US"], Some("en-US"), "/en-US/blog") == PassThrough
  {
    NotStartsWithAt("/en-USA", "/en-US/", 6);
    assert HasLocalePrefix("/en-US/blog", "en-US");
  }

  /** The registry used by the redirect-loop example: "en-US" and "de", default "en". */
  function LoopRegistry(): LocalesResponse {
    LocalesResponse(true, "OK", Some([CtfLocale("en-US", "English", true), CtfLocale("de", "German", false)]))
  }

  /**
   * A registry listing "en-US" and "de" has default "en". A request whose
   * language matches neither is sent to `/en` + path, which is again under
   * neither listed locale, so every answer redirects once more: a redirect loop.
   */
  lemma {:induction false} UnlistedDefaultRedirectLoop(path: string)
    requires StartsWith(path, "/") && !HasLocalePrefix(path, "en-US") && !HasLocalePrefix(path, "de")
    ensures Middleware(LoopRegistry(), LoopRegistry(), None, path) == Success(Redirect("/en" + path))
    ensures var next := "/en" + path;
      StartsWith(next, "/") && !HasLocalePrefix(next, "en-US") && !HasLocalePrefix(next, "de")
  {
    var fetched := [CtfLocale("en-US", "English", true), CtfLocale("de", "German", false)];
    assert Codes(fetched) == ["en-US", "de"];
    assert GetI18nConfig(fetched).defaultLocale == Some("en");
    assert path == "/" + path[1..];
    assert RedirectTarget("en", path) == "/en" + path;
    var next := "/en" + path;
    assert next[3] == '/';
    NotStartsWithAt(next, "/en-US/", 3);
    NotStartsWithAt(next, "/de/", 1);
    assert next != "/en-US" by { if |next| == 6 { assert next[3] != "/en-US"[3]; } }
    assert next != "/de" by { assert next[1] != 'd'; }
  }

  /** The path prefixes (after the first `/`) that `config.matcher` keeps away from the middleware. */
  const ExcludedPatterns: seq<string> := ["api", "_next/static", "_next/image", "favicon.ico", "setup"]

  /**
   * The pattern matches at the start of `s`; in the matcher's regular
   * expression a `.` stands for any character.
   */
  predicate PatternAtStart(pattern: string, s: string) {
    |pattern| <= |s| && forall i :: 0 <= i < |pattern| ==> pattern[i] == '.' || pattern[i] == s[i]
  }

  /** `/((?!api|_next/static|_next/image|favicon.ico|setup).*)`: a raw prefix test, not a segment test. */
  predicate ReachesMiddleware(path: string) {
    |path| > 0 && path[0] == '/'
    && forall k :: 0 <= k < |ExcludedPatterns| ==> !PatternAtStart(ExcludedPatterns[k], path[1..])
  }

  /** The whole request pipeline: excluded paths never run the middleware. */
  function HandleRequest(first: LocalesResponse, second: LocalesResponse, matched: Option<string>, path: string)
    : (r: Result<Outcome, string>)
    ensures !ReachesMiddleware(path) ==> r == Success(PassThrough)
    ensures ReachesMiddleware(path) ==> r == Middleware(first, second, matched, path)
  {
    if ReachesMiddleware(path) then Middleware(first, second, matched, path) else Success(PassThrough)
  }

  /**
   * A path that reaches the middleware starts with "/" and, after it, with
   * none of the excluded patterns read literally.
   */
  lemma ReachingPathsAvoidPatterns(path: string)
    requires ReachesMiddleware(path)
    ensures StartsWith(path, "/")
    ensures forall k :: 0 <= k < |ExcludedPatterns| ==> !StartsWith(path[1..], ExcludedPatterns[k])
  {
    forall k | 0 <= k < |ExcludedPatterns|
      ensures StartsWith(path[1..], ExcludedPatterns[k]) ==> PatternAtStart(ExcludedPatterns[k], path[1..])
    {
      LiteralPrefixMatches(ExcludedPatterns[k], path[1..]);
    }
  }

  /** A literal prefix always matches its pattern, wildcards or not. */
  lemma LiteralPrefixMatches(pattern: string, s: string)
    ensures StartsWith(s, pattern) ==> PatternAtStart(pattern, s)
  {
    if StartsWith(s, pattern) {
      assert forall i :: 0 <= i < |pattern| ==> s[..|pattern|][i] == s[i];
    }
  }

  /** Every path that begins with an excluded pattern, whatever follows it, skips the middleware. */
  lemma ExcludedPrefixNeverReaches(k: nat, rest: string)
    requires k < |ExcludedPatterns|
    ensures !ReachesMiddleware("/" + ExcludedPatterns[k] + rest)
  {
    var path := "/" + ExcludedPatterns[k] + rest;
    assert path[1..] == ExcludedPatterns[k] + rest;
    assert PatternAtStart(ExcludedPatterns[k], path[1..]);
  }

  /** Prefix exclusion catches longer words too, and `.` in `favicon.ico` matches any character. */
  lemma MatcherExclusions()
    ensures !ReachesMiddleware("/api/revalidate")
    ensures !ReachesMiddleware("/apiary")
    ensures !ReachesMiddleware("/setup-guide")
    ensures !ReachesMiddleware("/_next/static/chunk.js")
    ensures !ReachesMiddleware("/favicon.ico")
    ensures !ReachesMiddleware("/favicon-ico")
    ensures ReachesMiddleware("/blog/api")
    ensures ReachesMiddleware("/")
  {
    assert PatternAtStart(ExcludedPatterns[0], "api/revalidate");
    assert PatternAtStart(ExcludedPatterns[0], "apiary");
    assert PatternAtStart(ExcludedPatterns[4], "setup-guide");
    assert PatternAtStart(ExcludedPatterns[1], "_next/static/chunk.js");
    assert PatternAtStart(ExcludedPatterns[3], "favicon.ico");
    assert PatternAtStart(ExcludedPatterns[3], "favicon-ico");
    assert !PatternAtStart(ExcludedPatterns[0], "blog/api") by { assert "blog/api"[0] != 'a'; }
    assert !PatternAtStart(ExcludedPatterns[1], "blog/api") by { assert "blog/api"[0] != '_'; }
    assert !PatternAtStart(ExcludedPatterns[2], "blog/api") by { assert "blog/api"[0] != '_'; }
    assert !PatternAtStart(ExcludedPatterns[3], "blog/api") by { assert "blog/api"[0] != 'f'; }
    assert !PatternAtStart(ExcludedPatterns[4], "blog/api") by { assert "blog/api"[0] != 's'; }
  }
}
