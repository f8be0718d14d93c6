/**
 * The locale registry as `i18n-config.ts` derives it: the list of locale codes
 * fetched from the CMS and a default locale computed from that list.
 */
module I18nConfig {
  import opened Wrappers

  /** One item of the CMS locales response (its `sys` block is not read). */
  datatype CtfLocale = CtfLocale(code: string, name: string, isDefault: bool)

  /** What `getI18nConfig` returns; `defaultLocale` is `undefined` for an empty list. */
  datatype Config = Config(defaultLocale: Option<string>, locales: seq<string>)

  /** The HTTP response of the locales endpoint: status, status text and the `items` field of its body. */
  datatype LocalesResponse = LocalesResponse(ok: bool, statusText: string, items: Option<seq<CtfLocale>>)

  /** `locales.map(locale => locale.code)`. */
  function Codes(fetched: seq<CtfLocale>): (codes: seq<string>)
    ensures |codes| == |fetched|
    ensures forall i :: 0 <= i < |fetched| ==> codes[i] == fetched[i].code
  {
    if |fetched| == 0 then [] else [fetched[0].code] + Codes(fetched[1..])
  }

  /**
   * `getI18nConfig` after the fetch: the codes in fetched order, and the default
   * "en" when "en-US" is listed, else the first code.
   */
  function GetI18nConfig(fetched: seq<CtfLocale>): (c: Config)
    ensures c.locales == Codes(fetched)
    ensures "en-US" in c.locales ==> c.defaultLocale == Some("en")
    ensures "en-US" !in c.locales && |fetched| > 0 ==> c.defaultLocale == Some(fetched[0].code)
    ensures |fetched| == 0 ==> c.defaultLocale == None
  {
    var codes := Codes(fetched);
    Config(if "en-US" in codes then Some("en") else if |codes| > 0 then Some(codes[0]) else None, codes)
  }

  /** `getLocales`: a non-OK response throws; a body without `items` gives no locales. */
  function GetLocales(resp: LocalesResponse): (r: Result<seq<CtfLocale>, string>)
    ensures !resp.ok <==> r.Failure?
    ensures r.Failure? ==> r.error == "Failed to fetch locales: " + resp.statusText
    ensures resp.ok ==> r == Success(resp.items.GetOr([]))
  {
    if !resp.ok then Failure("Failed to fetch locales: " + resp.statusText)
    else Success(resp.items.GetOr([]))
  }

  /** `await getI18nConfig()`: the fetch followed by the derivation; a fetch error propagates. */
  function LoadI18nConfig(resp: LocalesResponse): (r: Result<Config, string>)
    ensures r.Failure? <==> !resp.ok
    ensures r.Failure? ==> r.error == "Failed to fetch locales: " + resp.statusText
    ensures resp.ok ==> r == Success(GetI18nConfig(resp.items.GetOr([])))
  {
    match GetLocales(resp)
    case Failure(e) => Failure(e)
    case Success(fetched) => Success(GetI18nConfig(fetched))
  }

  /** The default locale is listed exactly when "en-US" is absent and the list is not empty, or "en" is itself listed. */
  lemma DefaultListedIff(fetched: seq<CtfLocale>)
    ensures var c := GetI18nConfig(fetched);
      (c.defaultLocale.Some? && c.defaultLocale.value in c.locales)
      <==> (|fetched| > 0 && ("en-US" !in c.locales || "en" in c.locales))
  {
  }

  /** A registry holding "en-US" but not "en" has a default locale that is not one of its locales. */
  lemma DefaultNotAlwaysListed()
    ensures var c := GetI18nConfig([CtfLocale("en-US", "English (United States)", true), CtfLocale("de", "German", false)]);
      c.locales == ["en-US", "de"] && c.defaultLocale == Some("en") && "en" !in c.locales
  {
    var fetched := [CtfLocale("en-US", "English (United States)", true), CtfLocale("de", "German", false)];
    assert Codes(fetched) == ["en-US", "de"];
  }
}
