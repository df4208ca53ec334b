/**
 * Request construction: the query parameters sent to an instance's
 * `/search` endpoint, and how the user-facing 1-based page becomes the
 * backend's 0-based `pageno`. The URL parser and percent-encoding are not
 * modelled: a URL is its base address and its parameter list.
 */
module Request {
  import opened JsValue

  datatype Param = Param(name: string, value: string)

  /**
   * A GET to the `/search` endpoint of the instance at `base`, carrying
   * `params` in the order they are set. How the endpoint path is derived
   * from `base` differs between the frontends and is not recorded: the main
   * one resolves `/search` against the base's origin, the legacy one appends
   * `/search` to the base text.
   */
  datatype Url = Url(base: string, params: seq<Param>)

  function SearchParams(q: string, pageno: string): seq<Param> {
    [Param("q", q), Param("format", "json"), Param("pageno", pageno)]
  }

  /**
   * `Math.max(0, page - 1)` of the main frontend: never negative; the
   * previous page for every user-facing page from 1 on, and 0 below that.
   */
  function PageNo(page: int): (n: int)
    ensures n >= 0
    ensures page >= 1 ==> n == page - 1
    ensures page < 1 ==> n == 0
  {
    if 0 < page - 1 then page - 1 else 0
  }

  /** `page - 1` of the legacy frontend, with no clamp. */
  function LegacyPageNo(page: int): (n: int)
    ensures n < page
    ensures n + 1 == page
  {
    page - 1
  }

  /**
   * `buildUrl`: the primary URL with `q`, `format=json` and the clamped
   * `pageno`, or nothing when the base address does not parse.
   */
  function BuildUrl(base: string, q: string, page: int, baseParses: bool): (u: Option<Url>)
    ensures u.Some? <==> baseParses
    ensures u.Some? ==> u.value.base == base && |u.value.params| == 3
    ensures u.Some? ==> u.value.params[0] == Param("q", q) && u.value.params[1] == Param("format", "json")
    ensures u.Some? && page >= 1 ==> u.value.params[2] == Param("pageno", IntToString(page - 1))
    ensures u.Some? && page < 1 ==> u.value.params[2] == Param("pageno", "0")
  {
    if baseParses then Some(Url(base, SearchParams(q, IntToString(PageNo(page))))) else None
  }

  /** The fallback URL with an explicit `pageno=0`. */
  function FallbackUrl(base: string, q: string, baseParses: bool): (u: Option<Url>)
    ensures u.Some? <==> baseParses
    ensures u.Some? ==> u.value == Url(base, SearchParams(q, "0"))
  {
    if baseParses then Some(Url(base, SearchParams(q, IntToString(0)))) else None
  }

  /** `.filter(Boolean)`: drop the URLs that could not be built, keep the order. */
  function Built(us: seq<Option<Url>>): (r: seq<Url>)
    ensures |r| <= |us|
  {
    if us == [] then []
    else (if us[0].Some? then [us[0].value] else []) + Built(us[1..])
  }

  /**
   * `urlsToTry`: the primary URL, then the fallback URL, each kept only if
   * it could be built. Both resolve `/search` against the same base, so
   * either both are kept or neither is.
   */
  function UrlsToTry(base: string, q: string, page: int, baseParses: bool): (urls: seq<Url>)
    ensures !baseParses ==> urls == []
    ensures baseParses ==> urls == [BuildUrl(base, q, page, true).value, FallbackUrl(base, q, true).value]
  {
    var us := [BuildUrl(base, q, page, baseParses), FallbackUrl(base, q, baseParses)];
    assert us[1..] == [us[1]] && us[1..][1..] == [];
    assert Built(us[1..][1..]) == [];
    assert Built(us[1..]) == (if us[1].Some? then [us[1].value] else []);
    Built(us)
  }

  /** The legacy frontend's only request: `pageno=page-1`, unclamped. */
  function LegacyUrl(base: string, q: string, page: int): (u: Url)
    ensures u.base == base && |u.params| == 3
    ensures u.params[0] == Param("q", q) && u.params[1] == Param("format", "json")
    ensures u.params[2] == Param("pageno", IntToString(LegacyPageNo(page)))
  {
    Url(base, SearchParams(q, IntToString(page - 1)))
  }

  /**
   * For every page a user can reach (page 1 and up) the two frontends send
   * the same base and parameter list (`q`, `format=json`, `pageno` is
   * `page - 1`); the full URLs coincide only for a base that is a bare
   * origin.
   */
  lemma PageNoAgreesOnUserPages(base: string, q: string, page: int)
    requires page >= 1
    ensures PageNo(page) == LegacyPageNo(page) == page - 1
    ensures BuildUrl(base, q, page, true) == Some(LegacyUrl(base, q, page))
  {
  }

  /**
   * On page 1 (and below) the primary URL already asks for `pageno=0`, so
   * the fallback repeats the very same request.
   */
  lemma FallbackRepeatsPrimaryOnFirstPage(base: string, q: string, page: int)
    requires page <= 1
    ensures UrlsToTry(base, q, page, true)[0] == UrlsToTry(base, q, page, true)[1]
  {
  }

  /** From page 2 on, the two URLs differ exactly in their `pageno`. */
  lemma FallbackDiffersFromSecondPage(base: string, q: string, page: int)
    requires page >= 2
    ensures UrlsToTry(base, q, page, true)[0].params[..2] == UrlsToTry(base, q, page, true)[1].params[..2]
    ensures UrlsToTry(base, q, page, true)[0].params[2] != UrlsToTry(base, q, page, true)[1].params[2]
  {
    var n := page - 1;
    assert n >= 1;
    NatToStringNotZero(n);
  }

  lemma NatToStringNotZero(n: nat)
    requires n >= 1
    ensures NatToString(n) != "0"
  {
    if n >= 10 {
      assert |NatToString(n)| >= 2 by { assert NatToString(n) == NatToString(n / 10) + [DigitChar(n % 10)]; }
    } else {
      assert NatToString(n) == [DigitChar(n)];
      assert "0123456789"[n] != '0';
    }
  }
}
