/** The read URLs of the three core services, as the integration layer builds
    them from a base URL, and the routing by which a core service recovers the
    productId from such a URL. */
module Urls {
  import opened Api
  import Decimal

  function ProductPath(productId: int): string {
    "/product/" + Decimal.IntToString(productId)
  }

  /** "<base>/product/<id>" */
  function ProductUrl(base: string, productId: int): string {
    base + ProductPath(productId)
  }

  /** "<base>/recommendation?productId=<id>" */
  function RecommendationsUrl(base: string, productId: int): string {
    base + "/recommendation?productId=" + Decimal.IntToString(productId)
  }

  /** "<base>/review?productId=<id>" */
  function ReviewsUrl(base: string, productId: int): string {
    base + "/review?productId=" + Decimal.IntToString(productId)
  }

  /** The rest of s after the given prefix, if s starts with it. */
  function StripPrefix(prefix: string, s: string): (r: Option<string>)
    ensures r.Some? <==> prefix <= s
    ensures r.Some? ==> s == prefix + r.value
  {
    if prefix <= s then Some(s[|prefix|..]) else None
  }

  /** The productId of a URL of the `/product/{productId}` route, if it is one. */
  function RouteProduct(base: string, url: string): Option<int> {
    match StripPrefix(base + "/product/", url)
    case None => None
    case Some(rest) => Decimal.ParseInt(rest)
  }

  /** The productId of a URL of the `/recommendation?productId=` route, if it is one. */
  function RouteRecommendations(base: string, url: string): Option<int> {
    match StripPrefix(base + "/recommendation?productId=", url)
    case None => None
    case Some(rest) => Decimal.ParseInt(rest)
  }

  /** The productId of a URL of the `/review?productId=` route, if it is one. */
  function RouteReviews(base: string, url: string): Option<int> {
    match StripPrefix(base + "/review?productId=", url)
    case None => None
    case Some(rest) => Decimal.ParseInt(rest)
  }

  lemma StripPrefixOfConcat(prefix: string, rest: string)
    ensures StripPrefix(prefix, prefix + rest) == Some(rest)
  {
    assert (prefix + rest)[|prefix|..] == rest;
  }

  /** Each read URL routes back to the productId it was built from. */
  lemma RouteOfUrl(base: string, productId: int)
    ensures RouteProduct(base, ProductUrl(base, productId)) == Some(productId)
    ensures RouteRecommendations(base, RecommendationsUrl(base, productId)) == Some(productId)
    ensures RouteReviews(base, ReviewsUrl(base, productId)) == Some(productId)
  {
    var digits := Decimal.IntToString(productId);
    Decimal.ParseIntOfIntToString(productId);
    assert ProductUrl(base, productId) == (base + "/product/") + digits;
    StripPrefixOfConcat(base + "/product/", digits);
    assert RecommendationsUrl(base, productId) == (base + "/recommendation?productId=") + digits;
    StripPrefixOfConcat(base + "/recommendation?productId=", digits);
    assert ReviewsUrl(base, productId) == (base + "/review?productId=") + digits;
    StripPrefixOfConcat(base + "/review?productId=", digits);
  }

  /** Distinct productIds give distinct product URLs. */
  lemma ProductUrlInjective(base: string, i: int, j: int)
    requires ProductUrl(base, i) == ProductUrl(base, j)
    ensures i == j
  {
    RouteOfUrl(base, i);
    RouteOfUrl(base, j);
  }
}
