/**
 * The cross-origin (CORS) header policy of the proxy: the four CORS
 * response headers that section 3.2 of the WHATWG Fetch Standard defines,
 * computed from the request's `Origin` header and a static allow-list. Two operations
 * use it: one merges its headers into a response's header set in place,
 * and one answers a preflight request.
 */
module Cors {
  import opened Http

  /** The shipped allow-list: every origin is allowed. */
  const AllowedOrigins: seq<string> := ["*"]

  const AllowOriginName: string := "Access-Control-Allow-Origin"
  const AllowMethodsName: string := "Access-Control-Allow-Methods"
  const AllowHeadersName: string := "Access-Control-Allow-Headers"
  const MaxAgeName: string := "Access-Control-Max-Age"

  const AllowedMethods: string := "GET, POST, PUT, DELETE, OPTIONS"
  const AllowedHeaders: string := "Content-Type, Authorization, X-Requested-With, OpenAI-Organization"
  const MaxAgeSeconds: string := "86400"

  /** The four CORS header names, in the order the policy lists them. */
  const CorsHeaderNames: seq<string> :=
    [AllowOriginName, AllowMethodsName, AllowHeadersName, MaxAgeName]

  /** The request's `Origin` header, or `""` when it is absent. */
  function RequestOrigin(requestHeaders: HeaderMap): (origin: string)
    ensures "Origin" in requestHeaders ==> origin == requestHeaders["Origin"]
    ensures "Origin" !in requestHeaders ==> origin == ""
  {
    if "Origin" in requestHeaders then requestHeaders["Origin"] else ""
  }

  /** The allow-list admits `origin`: it holds the wildcard or the origin. */
  predicate Permitted(origin: string, allowed: seq<string>) {
    "*" in allowed || origin in allowed
  }

  /** The value of `Access-Control-Allow-Origin`. A permitted origin is
      echoed; otherwise the first allow-list entry is sent, or `""` when the
      list is empty. So the header never names an origin that is neither
      the (permitted) request origin nor an allow-list entry. */
  function AllowOrigin(origin: string, allowed: seq<string>): (r: string)
    ensures Permitted(origin, allowed) ==> r == origin
    ensures !Permitted(origin, allowed) && allowed != [] ==> r == allowed[0]
    ensures (Permitted(origin, allowed) && r == origin) || r in allowed || (allowed == [] && r == "")
  {
    if Permitted(origin, allowed) then origin
    else if allowed != [] then allowed[0]
    else ""
  }

  /** The CORS headers for a request: exactly the four CORS names, three of
      them bound to fixed values whatever the request is. */
  function GetCorsHeaders(requestHeaders: HeaderMap, allowed: seq<string>): (h: HeaderMap)
    ensures h.Keys == set n | n in CorsHeaderNames
    ensures h[AllowOriginName] == AllowOrigin(RequestOrigin(requestHeaders), allowed)
    ensures h[AllowMethodsName] == AllowedMethods
    ensures h[AllowHeadersName] == AllowedHeaders
    ensures h[MaxAgeName] == MaxAgeSeconds
  {
    map[
      AllowOriginName := AllowOrigin(RequestOrigin(requestHeaders), allowed),
      AllowMethodsName := AllowedMethods,
      AllowHeadersName := AllowedHeaders,
      MaxAgeName := MaxAgeSeconds]
  }

  /** Two requests get the same CORS headers except, at most, for
      `Access-Control-Allow-Origin`. */
  lemma CorsHeadersFixedButOrigin(h1: HeaderMap, h2: HeaderMap, allowed: seq<string>)
    ensures GetCorsHeaders(h1, allowed) - {AllowOriginName}
         == GetCorsHeaders(h2, allowed) - {AllowOriginName}
  {
    var c1, c2 := GetCorsHeaders(h1, allowed), GetCorsHeaders(h2, allowed);
    assert (c1 - {AllowOriginName}).Keys == (c2 - {AllowOriginName}).Keys;
  }

  /** With the shipped wildcard allow-list, the request's origin (or `""`)
      is always echoed. */
  lemma ShippedListEchoesOrigin(requestHeaders: HeaderMap)
    ensures GetCorsHeaders(requestHeaders, AllowedOrigins)[AllowOriginName]
         == RequestOrigin(requestHeaders)
  {
    assert "*" in AllowedOrigins;
  }

  /** The origin is echoed exactly when the allow-list admits it, apart
      from the one case where the fallback happens to equal it: an empty
      origin against an empty list. */
  lemma EchoesOnlyPermitted(origin: string, allowed: seq<string>)
    ensures AllowOrigin(origin, allowed) == origin
        <==> Permitted(origin, allowed) || (allowed == [] && origin == "")
  {
    if !Permitted(origin, allowed) && allowed != [] {
      assert allowed[0] in allowed;
    }
  }

  /** `after` and `before` agree on every header outside `names`. */
  ghost predicate AgreeOutside(after: HeaderMap, before: HeaderMap, names: set<string>) {
    forall n :: n !in names ==>
      (n in after <==> n in before) && (n in before ==> after[n] == before[n])
  }

  /** `base` after `set(n, values[n])` for each `n` of `names`, in order:
      every name listed holds its new value, and every other header is
      as it was. */
  function SetEach(base: HeaderMap, names: seq<string>, values: HeaderMap): (r: HeaderMap)
    requires forall i :: 0 <= i < |names| ==> names[i] in values
    ensures forall i :: 0 <= i < |names| ==> names[i] in r && r[names[i]] == values[names[i]]
    ensures AgreeOutside(r, base, set n | n in names)
  {
    if names == [] then base
    else
      var last := names[|names| - 1];
      SetEach(base, names[..|names| - 1], values)[last := values[last]]
  }

  /** Setting each name in turn is a merge: the named headers take their
      new values, in whatever order they are set, and the rest are kept. */
  lemma SetEachIsMerge(base: HeaderMap, names: seq<string>, values: HeaderMap)
    requires forall i :: 0 <= i < |names| ==> names[i] in values
    ensures SetEach(base, names, values) == base + map n | n in names :: values[n]
  {
    var r := SetEach(base, names, values);
    var merged := base + map n | n in names :: values[n];
    forall n
      ensures n in r <==> n in merged
      ensures n in r ==> r[n] == merged[n]
    {
      if n in names {
        var i :| 0 <= i < |names| && names[i] == n;
      }
    }
  }

  /** Merges the CORS headers for the request into a response header set,
      in place, one `set` per CORS header: the four CORS names take the
      policy's values, overwriting any existing ones, and every other
      header is left as it was. */
  method AddCorsHeaders(headers: Headers, requestHeaders: HeaderMap)
    modifies headers
    ensures headers.entries == old(headers.entries) + GetCorsHeaders(requestHeaders, AllowedOrigins)
    ensures forall n :: n in CorsHeaderNames ==>
      n in headers.entries && headers.entries[n] == GetCorsHeaders(requestHeaders, AllowedOrigins)[n]
    ensures AgreeOutside(headers.entries, old(headers.entries), set n | n in CorsHeaderNames)
  {
    var cors := GetCorsHeaders(requestHeaders, AllowedOrigins);
    for i := 0 to |CorsHeaderNames|
      invariant headers.entries == SetEach(old(headers.entries), CorsHeaderNames[..i], cors)
    {
      var name := CorsHeaderNames[i];
      headers.Set(name, cors[name]);
      assert CorsHeaderNames[..i + 1][..i] == CorsHeaderNames[..i];
    }
    assert CorsHeaderNames[..|CorsHeaderNames|] == CorsHeaderNames;
    SetEachIsMerge(old(headers.entries), CorsHeaderNames, cors);
    assert (map n | n in CorsHeaderNames :: cors[n]) == cors;
  }

  /** The answer to a preflight request: no content, no body, and only the
      CORS headers. */
  function HandleCors(request: Request): (r: Response)
    ensures r.status == 204 && r.statusText == "" && r.body == Null
    ensures r.headers == GetCorsHeaders(request.headers, AllowedOrigins)
  {
    Response(204, "", GetCorsHeaders(request.headers, AllowedOrigins), Null)
  }
}
