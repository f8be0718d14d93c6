/**
 * The CMS client helpers (`lib/contentful.ts`): the error-to-empty fallbacks
 * of `getEntries` and `getLocales`, and the paging loop of `getAllPageSlugs`.
 * The CMS itself is a parameter: a function from a query to a page of
 * results or an error (a thrown exception).
 */
module ContentfulClient {
  import opened Wrappers
  import opened I18nConfig

  /** A locale as the CMS returns it; `fallbackCode` and the rest are not kept. */
  datatype CmsLocale = CmsLocale(code: string, name: string, default: bool, fallbackCode: Option<string>)

  /** `getEntries`: the items, or no items when the request fails. */
  function GetEntries<E>(response: Result<seq<E>, string>): (items: seq<E>)
    ensures response.Failure? ==> items == []
    ensures response.Success? ==> items == response.value
  {
    match response
    case Success(es) => es
    case Failure(_) => []
  }

  function ToCtfLocale(l: CmsLocale): CtfLocale {
    CtfLocale(l.code, l.name, l.default)
  }

  /** `getLocales`: each locale reduced to its code, name and default flag; none when the request fails. */
  function GetLocales(response: Result<seq<CmsLocale>, string>): (r: seq<CtfLocale>)
    ensures response.Failure? ==> r == []
    ensures response.Success? ==>
      |r| == |response.value| &&
      forall i :: 0 <= i < |r| ==>
        r[i].code == response.value[i].code && r[i].name == response.value[i].name && r[i].isDefault == response.value[i].default
  {
    match response
    case Failure(_) => []
    case Success(ls) => seq(|ls|, i requires 0 <= i < |ls| => ToCtfLocale(ls[i]))
  }

  /** An entry of the slug query; only `fields.slug` is selected. */
  datatype SlugItem = SlugItem(slug: string)

  /** A page of results with the collection's `total` and the page size the CMS applied. */
  datatype Collection = Collection(items: seq<SlugItem>, total: nat, limit: nat)

  /** The caller's query, and the same query narrowed to one page of slugs. */
  datatype Query<O> = Initial(options: O) | SlugPage(options: O, skip: nat, limit: nat)

  /** The CMS: a query answered with a collection or an error. */
  type Cms<!O> = Query<O> -> Result<Collection, string>

  function Slugs(items: seq<SlugItem>): (slugs: seq<string>)
    ensures |slugs| == |items|
    ensures forall i :: 0 <= i < |items| ==> slugs[i] == items[i].slug
  {
    seq(|items|, i requires 0 <= i < |items| => items[i].slug)
  }

  /** `a / b` rounded up. */
  function CeilDiv(a: nat, b: nat): (q: nat)
    requires b > 0
    ensures q * b >= a
    ensures q == 0 || (q - 1) * b < a
  {
    (a + b - 1) / b
  }

  /**
   * `Math.ceil(total / limit)`. With a zero limit and no entries this is
   * NaN, and the loop does not run.
   */
  function PageCount(total: nat, limit: nat): (n: nat)
    requires limit > 0 || total == 0
    ensures limit == 0 ==> n == 0
    ensures limit > 0 ==> n * limit >= total && (n == 0 || (n - 1) * limit < total)
  {
    if limit == 0 then 0 else CeilDiv(total, limit)
  }

  /**
   * The slugs of pages 0 to `pages - 1` in page order, where page p asks for
   * `limit` entries from `p * limit`; the first failing page's error otherwise.
   */
  function SlugsUpTo<O>(cms: Cms<O>, options: O, limit: nat, pages: nat): Result<seq<string>, string> {
    if pages == 0 then Success([])
    else
      match SlugsUpTo(cms, options, limit, pages - 1)
      case Failure(e) => Failure(e)
      case Success(acc) =>
        match cms(SlugPage(options, (pages - 1) * limit, limit))
        case Failure(e) => Failure(e)
        case Success(page) => Success(acc + Slugs(page.items))
  }

  /** The request for page `page`: `limit` entries from `page * limit`, slugs only. */
  function PageRequest<O>(options: O, limit: nat, page: nat): Query<O> {
    SlugPage(options, page * limit, limit)
  }

  /** The run of pages succeeds exactly when every one of its page requests does. */
  lemma {:induction false} SlugsUpToSucceedsIff<O>(cms: Cms<O>, options: O, limit: nat, pages: nat)
    ensures SlugsUpTo(cms, options, limit, pages).Success?
      <==> forall p :: 0 <= p < pages ==> cms(PageRequest(options, limit, p)).Success?
  {
    if pages > 0 {
      SlugsUpToSucceedsIff(cms, options, limit, pages - 1);
      assert PageRequest(options, limit, pages - 1) == SlugPage(options, (pages - 1) * limit, limit);
    }
  }

  /** A first response the loop can finish on: a zero limit only with nothing to page through. */
  predicate Pageable(first: Collection) {
    first.limit > 0 || first.total == 0
  }

  /** What `getAllPageSlugs` returns: every page's slugs, or nothing if any request fails. */
  function AllPageSlugs<O>(cms: Cms<O>, options: O): (slugs: seq<string>)
    requires cms(Initial(options)).Success? ==> Pageable(cms(Initial(options)).value)
    ensures cms(Initial(options)).Failure? ==> slugs == []
    ensures cms(Initial(options)).Success? ==>
      var first := cms(Initial(options)).value;
      (exists p :: 0 <= p < PageCount(first.total, first.limit) && cms(PageRequest(options, first.limit, p)).Failure?) ==> slugs == []
  {
    match cms(Initial(options))
    case Failure(_) => []
    case Success(first) =>
      SlugsUpToSucceedsIff(cms, options, first.limit, PageCount(first.total, first.limit));
      match SlugsUpTo(cms, options, first.limit, PageCount(first.total, first.limit))
      case Failure(_) => []
      case Success(slugs) => slugs
  }

  /** `getAllPageSlugs(options)`: the paging loop as written. */
  method GetAllPageSlugs<O>(cms: Cms<O>, options: O) returns (allSlugs: seq<string>)
    requires cms(Initial(options)).Success? ==> Pageable(cms(Initial(options)).value)
    ensures allSlugs == AllPageSlugs(cms, options)
  {
    allSlugs := [];
    var entries := cms(Initial(options));
    if entries.Failure? {
      return [];
    }
    var limit := entries.value.limit;
    var numberOfPages := PageCount(entries.value.total, limit);
    var page := 0;
    while page < numberOfPages
      invariant 0 <= page <= numberOfPages
      invariant SlugsUpTo(cms, options, limit, page) == Success(allSlugs)
    {
      var slugs := cms(SlugPage(options, page * limit, limit));
      if slugs.Failure? {
        FailureSticks(cms, options, limit, page + 1, numberOfPages);
        return [];
      }
      allSlugs := allSlugs + Slugs(slugs.value.items);
      page := page + 1;
    }
  }

  /** Once a page fails, every longer run of pages fails too. */
  lemma {:induction false} FailureSticks<O>(cms: Cms<O>, options: O, limit: nat, failed: nat, pages: nat)
    requires failed <= pages
    requires SlugsUpTo(cms, options, limit, failed).Failure?
    ensures SlugsUpTo(cms, options, limit, pages).Failure?
    decreases pages
  {
    if pages > failed {
      FailureSticks(cms, options, limit, failed, pages - 1);
    }
  }

  /** `list[skip..skip + limit]`, clipped to the list. */
  function Window<T>(list: seq<T>, skip: nat, limit: nat): seq<T> {
    if skip >= |list| then [] else if skip + limit >= |list| then list[skip..] else list[skip..skip + limit]
  }

  /**
   * A CMS that pages faithfully through a fixed list of slugs: the first
   * response reports the list's length and a positive limit, and each slug
   * query returns the requested window.
   */
  ghost predicate HonestPager<O>(cms: Cms<O>, options: O, list: seq<string>, limit: nat) {
    && limit > 0
    && cms(Initial(options)).Success?
    && cms(Initial(options)).value.total == |list|
    && cms(Initial(options)).value.limit == limit
    && forall skip: nat :: cms(SlugPage(options, skip, limit)).Success?
         && Slugs(cms(SlugPage(options, skip, limit)).value.items) == Window(list, skip, limit)
  }

  lemma {:induction false} PagesReassemble<O>(cms: Cms<O>, options: O, list: seq<string>, limit: nat, pages: nat)
    requires HonestPager(cms, options, list, limit)
    ensures pages * limit <= |list| ==> SlugsUpTo(cms, options, limit, pages) == Success(list[..pages * limit])
    ensures pages * limit > |list| ==> SlugsUpTo(cms, options, limit, pages).Success?
    ensures pages * limit > |list| && (pages - 1) * limit < |list| ==> SlugsUpTo(cms, options, limit, pages) == Success(list)
  {
    if pages > 0 {
      var skip := (pages - 1) * limit;
      PagesReassemble(cms, options, list, limit, pages - 1);
      assert pages * limit == skip + limit;
      var window := Window(list, skip, limit);
      assert Slugs(cms(SlugPage(options, skip, limit)).value.items) == window;
      if skip <= |list| {
        assert list[..skip] + window == if skip + limit <= |list| then list[..skip + limit] else list;
      }
    }
  }

  /** Paging through an honest CMS returns exactly its list, in order. */
  lemma HonestPagingReturnsList<O>(cms: Cms<O>, options: O, list: seq<string>, limit: nat)
    requires HonestPager(cms, options, list, limit)
    ensures AllPageSlugs(cms, options) == list
  {
    var n := PageCount(|list|, limit);
    PagesReassemble(cms, options, list, limit, n);
    if n * limit == |list| {
      assert list[..n * limit] == list;
    }
  }
}
