// src/middleware.ts: the CORS decision for API routes.  A request under
// /api whose Origin is allowed gets the CORS response headers with its
// origin echoed back; a preflight (OPTIONS) is answered at once with 200;
// every other request goes on to its route.

module Middleware {
  import opened Wrappers
  import opened Text

  datatype Request = Request(pathname: string, httpMethod: string, origin: Option<string>)

  /** The four CORS response headers. */
  datatype CorsHeaders = CorsHeaders(allowOrigin: string, allowMethods: string, allowHeaders: string, maxAge: string)

  datatype Outcome =
    | PassThrough                                // not an API route: `NextResponse.next()` untouched
    | Continue(cors: Option<CorsHeaders>)        // an API route goes on, with the headers if the origin is allowed
    | Preflight(cors: Option<CorsHeaders>)       // OPTIONS answered with 200 and the same headers

  const AllowedOrigins: seq<string> := [
    "http://localhost:4321",
    "http://localhost:4322",
    "http://localhost:3001",
    "https://ausbeds.com.au",
    "https://beta.ausbeds.com.au",
    "https://*.vercel.app"
  ]

  const AllowMethods := "GET, POST, PUT, DELETE, OPTIONS"
  const AllowHeaders := "Content-Type, X-API-Key"
  const MaxAge := "86400"

  // ---------------------------------------------------------------------
  // The pattern /https:\/\/.*\.vercel\.app/, unanchored

  /** A JavaScript line terminator, which `.` does not match. */
  predicate IsLineTerminator(c: char)
  {
    c == '\n' || c == '\r' || c == '\U{2028}' || c == '\U{2029}'
  }

  predicate HttpsAt(s: string, i: int)
  {
    0 <= i && i + 8 <= |s| && s[i..i + 8] == "https://"
  }

  predicate VercelAppAt(s: string, j: int)
  {
    0 <= j && j + 11 <= |s| && s[j..j + 11] == ".vercel.app"
  }

  /** `.*` between the two: any run without a line terminator. */
  predicate AnyBetween(s: string, from: int, to: int)
  {
    0 <= from <= to <= |s| && forall k :: from <= k < to ==> !IsLineTerminator(s[k])
  }

  /** `origin.match(…)` finds a match somewhere in the origin. */
  predicate VercelMatch(s: string)
  {
    exists i, j | 0 <= i <= |s| && 0 <= j <= |s| :: HttpsAt(s, i) && VercelAppAt(s, j) && AnyBetween(s, i + 8, j)
  }

  /** `origin && (allowedOrigins.includes(origin) || origin.match(…))` */
  predicate OriginAllowed(origin: Option<string>)
  {
    origin.Some? && origin.value != "" && (origin.value in AllowedOrigins || VercelMatch(origin.value))
  }

  /** `middleware(request)` */
  function HandleRequest(r: Request): (o: Outcome)
    ensures o == PassThrough <==> !StartsWith(r.pathname, "/api")
    ensures o.Preflight? ==> r.httpMethod == "OPTIONS"
    ensures !o.PassThrough? ==> (o.cors.Some? <==> OriginAllowed(r.origin))
    ensures !o.PassThrough? && o.cors.Some? ==> o.cors.value.allowOrigin == r.origin.value
  {
    if !StartsWith(r.pathname, "/api") then PassThrough
    else
      var cors := if OriginAllowed(r.origin) then Some(CorsHeaders(r.origin.value, AllowMethods, AllowHeaders, MaxAge)) else None;
      if r.httpMethod == "OPTIONS" then Preflight(cors) else Continue(cors)
  }

  function CorsOf(o: Outcome): Option<CorsHeaders>
  {
    match o
    case PassThrough => None
    case Continue(c) => c
    case Preflight(c) => c
  }

  // ---------------------------------------------------------------------
  // Properties

  /**
   * Only API paths are handled; the CORS headers are present exactly when
   * the origin is allowed, echo that origin, and carry the fixed methods,
   * headers and max-age; only OPTIONS is answered as a preflight.
   */
  lemma CorsDecision(r: Request)
    ensures !StartsWith(r.pathname, "/api") <==> HandleRequest(r) == PassThrough
    ensures StartsWith(r.pathname, "/api") ==>
      (CorsOf(HandleRequest(r)).Some? <==> OriginAllowed(r.origin)) &&
      (HandleRequest(r).Preflight? <==> r.httpMethod == "OPTIONS")
    ensures CorsOf(HandleRequest(r)).Some? ==>
      r.origin.Some? && CorsOf(HandleRequest(r)).value == CorsHeaders(r.origin.value, AllowMethods, AllowHeaders, MaxAge)
  {
  }

  /** The listed origins other than the wildcard entry: those matched by their exact text. */
  const ExactOrigins: seq<string> := AllowedOrigins[..5]

  /** The wildcard entry of the list, read as plain text, is itself matched by the pattern. */
  lemma WildcardEntryMatches(s: string)
    requires s == "https://*.vercel.app"
    ensures VercelMatch(s)
  {
    assert s[0..8] == "https://";
    assert s[9..20] == ".vercel.app";
    assert HttpsAt(s, 0) && VercelAppAt(s, 9) && AnyBetween(s, 8, 9);
  }

  /**
   * The list's wildcard entry adds nothing: it accepts only its own literal
   * text, which the pattern accepts anyway, so an origin is allowed exactly
   * when it is one of the five exact origins or matches the pattern.
   */
  lemma WildcardEntryRedundant(origin: string)
    ensures OriginAllowed(Some(origin)) <==> origin != "" && (origin in ExactOrigins || VercelMatch(origin))
  {
    if origin == AllowedOrigins[5] {
      WildcardEntryMatches(origin);
    }
    assert AllowedOrigins == ExactOrigins + [AllowedOrigins[5]];
  }

  /** The pattern is not anchored: any text around a match still matches. */
  lemma {:induction false} UnanchoredMatch(before: string, host: string, after: string, https: string, vercel: string)
    requires https == "https://" && vercel == ".vercel.app"
    requires forall k :: 0 <= k < |host| ==> !IsLineTerminator(host[k])
    ensures VercelMatch(before + https + host + vercel + after)
  {
    var s := before + https + host + vercel + after;
    var i := |before|;
    var j := |before| + 8 + |host|;
    assert s[i..i + 8] == https;
    assert s[j..j + 11] == vercel;
    assert forall k :: i + 8 <= k < j ==> s[k] == host[k - i - 8];
    assert HttpsAt(s, i) && VercelAppAt(s, j) && AnyBetween(s, i + 8, j);
  }

  /**
   * So an origin on another domain whose name merely contains a Vercel host,
   * such as "https://app.vercel.app.example.com", is allowed and echoed.
   */
  lemma OtherDomainAllowed(host: string, domain: string, pathname: string, httpMethod: string)
    requires forall k :: 0 <= k < |host| ==> !IsLineTerminator(host[k])
    requires StartsWith(pathname, "/api")
    ensures var origin := "https://" + host + ".vercel.app" + domain;
      CorsOf(HandleRequest(Request(pathname, httpMethod, Some(origin)))) ==
        Some(CorsHeaders(origin, AllowMethods, AllowHeaders, MaxAge))
  {
    UnanchoredMatch("", host, domain, "https://", ".vercel.app");
    assert "" + "https://" + host + ".vercel.app" + domain == "https://" + host + ".vercel.app" + domain;
  }

  /** Without "https://" in it no origin matches the pattern. */
  lemma NoHttpsNoMatch(s: string)
    requires !Contains(s, "https://")
    ensures !VercelMatch(s)
  {
    if VercelMatch(s) {
      var i, j :| 0 <= i <= |s| && 0 <= j <= |s| && HttpsAt(s, i) && VercelAppAt(s, j) && AnyBetween(s, i + 8, j);
      ContainsAt(s, "https://", i);
    }
  }
}
