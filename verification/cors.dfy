/**
 The `headers` middleware mounted on `/graphql` in src/index.ts: it picks
 the `Access-Control-Allow-Origin` value from the request's `Origin`
 header and sets three more CORS headers.
 */
module Cors {

  import opened Options

  /** The development front end, the one origin echoed back. */
  const DevOrigin: string := "http://localhost:3000"

  /** The production site, answered to every other request. */
  const SiteOrigin: string := "https://mywebsite.com"

  const AllowOrigin: string := "Access-Control-Allow-Origin"
  const AllowMethods: string := "Access-Control-Allow-Methods"
  const AllowHeaders: string := "Access-Control-Allow-Headers"
  const AllowCredentials: string := "Access-Control-Allow-Credentials"

  /** The methods and request headers the middleware allows. */
  const AllowedMethodList: string := "GET, POST, OPTIONS, PUT, PATCH, DELETE"
  const AllowedHeaderList: string := "X-Requested-With,content-type"

  /** The origin choice: `req.headers.origin == 'http://localhost:3000'`.
      The header is a string or absent, and loose equality between an
      absent header and a string is false, so only an exact match selects
      the development origin. */
  function ChooseOrigin(requestOrigin: Option<string>): (allowed: string)
    ensures allowed == DevOrigin <==> requestOrigin == Some(DevOrigin)
    ensures allowed == SiteOrigin <==> requestOrigin != Some(DevOrigin)
  {
    if requestOrigin.Some? && requestOrigin.value == DevOrigin then DevOrigin else SiteOrigin
  }

  /** The four headers the middleware sets. `true` passed to `setHeader`
      goes out as the text `true`. */
  function GraphqlCorsHeaders(requestOrigin: Option<string>): (h: map<string, string>)
    ensures h.Keys == {AllowOrigin, AllowMethods, AllowHeaders, AllowCredentials}
    ensures h[AllowOrigin] == ChooseOrigin(requestOrigin)
    ensures h[AllowOrigin] in {DevOrigin, SiteOrigin}
    ensures h[AllowMethods] == AllowedMethodList
    ensures h[AllowHeaders] == AllowedHeaderList
    ensures h[AllowCredentials] == "true"
  {
    map[
      AllowOrigin := ChooseOrigin(requestOrigin),
      AllowMethods := AllowedMethodList,
      AllowHeaders := AllowedHeaderList,
      AllowCredentials := "true"
    ]
  }

  /** Credentials are allowed, and this middleware never sets the wildcard
      origin, which the Fetch Standard's CORS check refuses for
      credentialed requests. (Whether another middleware's value reaches
      the wire is a matter of middleware order, not of this function.) */
  lemma NeverWildcardWithCredentials(requestOrigin: Option<string>)
    ensures var h := GraphqlCorsHeaders(requestOrigin);
            h[AllowCredentials] == "true" && h[AllowOrigin] != "*"
  {
  }

  /** The Fetch Standard's CORS check passes when the allowed origin equals
      the request's origin. It does so for exactly the two configured
      origins and no other request. */
  lemma AdmittedOrigins(requestOrigin: Option<string>)
    ensures Some(ChooseOrigin(requestOrigin)) == requestOrigin
            <==> requestOrigin == Some(DevOrigin) || requestOrigin == Some(SiteOrigin)
  {
  }

  /** Choosing again from the chosen origin changes nothing. */
  lemma ChooseOriginIdempotent(requestOrigin: Option<string>)
    ensures ChooseOrigin(Some(ChooseOrigin(requestOrigin))) == ChooseOrigin(requestOrigin)
  {
  }

  /** Near misses of the development origin fall back to the site. */
  lemma NearMissesFallBack()
    ensures ChooseOrigin(None) == SiteOrigin
    ensures ChooseOrigin(Some("http://localhost:3000/")) == SiteOrigin
    ensures ChooseOrigin(Some("http://localhost:3001")) == SiteOrigin
    ensures ChooseOrigin(Some("https://localhost:3000")) == SiteOrigin
  {
    var slash, port, scheme := "http://localhost:3000/", "http://localhost:3001", "https://localhost:3000";
    assert |slash| != |DevOrigin|;
    assert port[20] != DevOrigin[20];
    assert scheme[4] != DevOrigin[4];
  }
}
