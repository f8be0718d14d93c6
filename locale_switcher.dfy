/**
 * The path arithmetic of the locale picker: rewriting the locale segment of
 * the current path, and reading the current locale back out of it.
 */
module LocaleSwitcher {
  import opened Wrappers
  import opened Strings

  /** `segments[1] = locale` on a JavaScript array: replaces index 1, or appends when the array has one element. */
  function SetSegmentOne(segments: seq<string>, locale: string): (r: seq<string>)
    requires |segments| >= 1
    ensures |r| == if |segments| >= 2 then |segments| else 2
    ensures r[1] == locale
    ensures forall i :: 0 <= i < |segments| && i != 1 ==> r[i] == segments[i]
  {
    if |segments| >= 2 then segments[1 := locale] else segments + [locale]
  }

  /** `redirectedPathname(locale)`: an empty or absent pathname gives "/". */
  function RedirectedPathname(pathname: Option<string>, locale: string): (r: string)
    ensures pathname.None? || pathname.value == "" ==> r == "/"
    ensures '/' in r
  {
    if pathname.None? || pathname.value == "" then "/"
    else
      var parts := SetSegmentOne(Split(pathname.value, '/'), locale);
      assert Join(parts, '/')[|parts[0]|] == '/';
      Join(parts, '/')
  }

  /** The current locale read in the first effect: segment 1, or "en-US" when it is empty or absent. */
  function CurrentLocale(pathname: string): (r: string)
    ensures r != "" && '/' !in r
    ensures r != "en-US" ==> |Split(pathname, '/')| >= 2 && r == Split(pathname, '/')[1]
    ensures |Split(pathname, '/')| >= 2 && Split(pathname, '/')[1] != "" ==> r == Split(pathname, '/')[1]
  {
    var segments := Split(pathname, '/');
    if |segments| >= 2 && segments[1] != "" then segments[1] else "en-US"
  }

  /**
   * Splitting the rewritten path gives the old segments with segment 1
   * replaced (or appended), provided the locale holds no '/'.
   */
  lemma RedirectedSegments(pathname: string, locale: string)
    requires pathname != "" && '/' !in locale
    ensures Split(RedirectedPathname(Some(pathname), locale), '/')
      == SetSegmentOne(Split(pathname, '/'), locale)
  {
    var parts := SetSegmentOne(Split(pathname, '/'), locale);
    assert forall i :: 0 <= i < |parts| ==> '/' !in parts[i];
    SplitJoin(parts, '/');
  }

  /** Only segment 1 changes: the others, and the segment count (when at least 2), are kept. */
  lemma RedirectKeepsOtherSegments(pathname: string, locale: string)
    requires pathname != "" && '/' !in locale
    ensures var before := Split(pathname, '/');
      var after := Split(RedirectedPathname(Some(pathname), locale), '/');
      && |after| == (if |before| >= 2 then |before| else 2)
      && after[1] == locale
      && forall i :: 0 <= i < |before| && i != 1 ==> after[i] == before[i]
  {
    RedirectedSegments(pathname, locale);
  }

  /** Round trip: the locale read back from the rewritten path is the chosen one. */
  lemma CurrentLocaleAfterRedirect(pathname: string, locale: string)
    requires pathname != "" && locale != "" && '/' !in locale
    ensures CurrentLocale(RedirectedPathname(Some(pathname), locale)) == locale
  {
    RedirectedSegments(pathname, locale);
  }

  /** With no pathname the round trip is lost: "/" reads back as "en-US". */
  lemma CurrentLocaleWithoutPathname(locale: string)
    ensures RedirectedPathname(None, locale) == "/"
    ensures CurrentLocale(RedirectedPathname(None, locale)) == "en-US"
  {
    assert Split("/", '/') == ["", ""] by {
      assert "/"[1..] == "";
    }
  }

  /** The worked cases: "/" gives "/fr", "/es/blog/x" gives "/fr/blog/x", "abc" gives "abc/fr". */
  lemma RedirectExamples()
    ensures RedirectedPathname(Some("/"), "fr") == "/fr"
    ensures RedirectedPathname(Some("/es/blog/x"), "fr") == "/fr/blog/x"
    ensures RedirectedPathname(Some("abc"), "fr") == "abc/fr"
  {
    RedirectRoot();
    RedirectNested();
    RedirectRelative();
  }

  lemma RedirectRoot()
    ensures RedirectedPathname(Some("/"), "fr") == "/fr"
  {
    SplitJoin(["", ""], '/');
    assert Join(["", ""], '/') == "/";
  }

  lemma RedirectNested()
    ensures RedirectedPathname(Some("/es/blog/x"), "fr") == "/fr/blog/x"
  {
    SplitJoin(["", "es", "blog", "x"], '/');
    assert Join(["", "es", "blog", "x"], '/') == "/es/blog/x";
    assert Join(["", "fr", "blog", "x"], '/') == "/fr/blog/x";
  }

  lemma RedirectRelative()
    ensures RedirectedPathname(Some("abc"), "fr") == "abc/fr"
  {
    SplitNoSeparator("abc", '/');
    assert Join(["abc", "fr"], '/') == "abc/fr";
  }
}
