/**
 * The request handler of the proxy. It proceeds as follows:
 * - A preflight (`OPTIONS`) request is answered directly with the CORS
 *   headers.
 * - Any other request is forwarded once, unchanged, to the resolved
 *   upstream URL.
 * - The upstream response is relayed with the CORS headers merged in.
 * - A failed upstream call becomes a generic 500 JSON error.
 *
 * The upstream call is a parameter: a function from the request the proxy
 * sends to what the call yields.
 */
module Proxy {
  import opened Http
  import Paths
  import Cors

  /** The body of the error response, as `JSON.stringify` writes it. */
  const ErrorBody: string := "{\"error\":\"Failed to proxy request\"}"

  /** The request sent upstream: the resolved URL, and the inbound method,
      headers and body unchanged, with redirects followed. */
  function Forwarded(request: Request): (u: UpstreamRequest)
    ensures u.url == Paths.TargetUrl(request.pathname, request.search)
    ensures u.verb == request.verb && u.headers == request.headers && u.body == request.body
    ensures u.followRedirects
  {
    UpstreamRequest(
      Paths.TargetUrl(request.pathname, request.search),
      request.verb, request.headers, request.body, true)
  }

  /** The response to a failed upstream call: status 500 with a fixed JSON
      body, a JSON content type and the CORS headers. */
  function ErrorResponse(request: Request): (r: Response)
    ensures r.status == 500 && r.statusText == "" && r.body == Content(ErrorBody)
    ensures r.headers.Keys == {"Content-Type"} + Cors.GetCorsHeaders(request.headers, Cors.AllowedOrigins).Keys
    ensures r.headers["Content-Type"] == "application/json"
    ensures Cors.AgreeOutside(r.headers, Cors.GetCorsHeaders(request.headers, Cors.AllowedOrigins), {"Content-Type"})
  {
    var cors := Cors.GetCorsHeaders(request.headers, Cors.AllowedOrigins);
    assert "Content-Type" !in cors;
    Response(500, "", map["Content-Type" := "application/json"] + cors, Content(ErrorBody))
  }

  /** The response the caller gets once the upstream call has its outcome:
      a reached upstream's status, status text and body pass through, with
      its headers kept except the four CORS names, which take the policy's
      values; a failure gives the error response. */
  function Relay(request: Request, outcome: UpstreamOutcome): (r: Response)
    ensures outcome.Failed? ==> r == ErrorResponse(request)
    ensures outcome.Reached? ==>
      && r.status == outcome.status
      && r.statusText == outcome.statusText
      && r.body == outcome.body
      && Cors.AgreeOutside(r.headers, outcome.headers, set n | n in Cors.CorsHeaderNames)
      && (forall n :: n in Cors.CorsHeaderNames ==>
            n in r.headers && r.headers[n] == Cors.GetCorsHeaders(request.headers, Cors.AllowedOrigins)[n])
  {
    match outcome
    case Reached(status, statusText, headers, body) =>
      Response(status, statusText, headers + Cors.GetCorsHeaders(request.headers, Cors.AllowedOrigins), body)
    case Failed => ErrorResponse(request)
  }

  /** The handler, as a function of the request and of the upstream call:
      a preflight is answered with the CORS headers alone, without the
      upstream; any other request is answered from the outcome of the one
      forwarded request. */
  function Handle(request: Request, upstream: UpstreamRequest -> UpstreamOutcome): (r: Response)
    ensures request.verb == "OPTIONS" ==>
      r.status == 204 && r.body == Null
      && r.headers == Cors.GetCorsHeaders(request.headers, Cors.AllowedOrigins)
    ensures request.verb != "OPTIONS" ==> r == Relay(request, upstream(Forwarded(request)))
  {
    if request.verb == "OPTIONS" then Cors.HandleCors(request)
    else Relay(request, upstream(Forwarded(request)))
  }

  /** The handler as the runtime runs it: preflight first; otherwise one
      upstream call, then a copy of the upstream headers into a fresh header
      set, which the CORS headers are merged into in place. */
  method Fetch(request: Request, upstream: UpstreamRequest -> UpstreamOutcome)
    returns (response: Response)
    ensures response == Handle(request, upstream)
  {
    if request.verb == "OPTIONS" {
      return Cors.HandleCors(request);
    }
    var outcome := upstream(Forwarded(request));
    match outcome {
      case Reached(status, statusText, upstreamHeaders, body) =>
        var responseHeaders := new Headers(upstreamHeaders);
        Cors.AddCorsHeaders(responseHeaders, request.headers);
        response := Response(status, statusText, responseHeaders.entries, body);
      case Failed =>
        response := ErrorResponse(request);
    }
  }

  /** A preflight request is answered with 204, no body and exactly the
      CORS headers, and its answer does not depend on the upstream at all:
      the upstream is never called. */
  lemma PreflightNeverForwarded(request: Request, u1: UpstreamRequest -> UpstreamOutcome,
                                u2: UpstreamRequest -> UpstreamOutcome)
    requires request.verb == "OPTIONS"
    ensures Handle(request, u1) == Handle(request, u2)
    ensures Handle(request, u1).status == 204 && Handle(request, u1).body == Null
    ensures Handle(request, u1).headers == Cors.GetCorsHeaders(request.headers, Cors.AllowedOrigins)
  {
  }

  /** Any other request depends on the upstream only through the answer
      to the one forwarded request. */
  lemma OtherRequestsForwardedOnce(request: Request, u1: UpstreamRequest -> UpstreamOutcome,
                                   u2: UpstreamRequest -> UpstreamOutcome)
    requires request.verb != "OPTIONS"
    requires u1(Forwarded(request)) == u2(Forwarded(request))
    ensures Handle(request, u1) == Handle(request, u2)
  {
  }

  /** A reached upstream's status, status text and body pass through; its
      headers are kept except the four CORS names, which take the policy's
      values. */
  lemma SuccessPassesThrough(request: Request, upstream: UpstreamRequest -> UpstreamOutcome)
    requires request.verb != "OPTIONS"
    requires upstream(Forwarded(request)).Reached?
    ensures var outcome, r := upstream(Forwarded(request)), Handle(request, upstream);
      && r.status == outcome.status
      && r.statusText == outcome.statusText
      && r.body == outcome.body
      && Cors.AgreeOutside(r.headers, outcome.headers, set n | n in Cors.CorsHeaderNames)
      && (forall n :: n in Cors.CorsHeaderNames ==>
            n in r.headers && r.headers[n] == Cors.GetCorsHeaders(request.headers, Cors.AllowedOrigins)[n])
  {
  }

  /** A failed upstream call gives 500 with the fixed JSON error body, a
      JSON content type and all four CORS headers. */
  lemma FailureGivesError(request: Request, upstream: UpstreamRequest -> UpstreamOutcome)
    requires request.verb != "OPTIONS"
    requires upstream(Forwarded(request)).Failed?
    ensures var r := Handle(request, upstream);
      && r.status == 500
      && r.body == Content("{\"error\":\"Failed to proxy request\"}")
      && "Content-Type" in r.headers && r.headers["Content-Type"] == "application/json"
      && (forall n :: n in Cors.CorsHeaderNames ==>
            n in r.headers && r.headers[n] == Cors.GetCorsHeaders(request.headers, Cors.AllowedOrigins)[n])
  {
  }

  /** A chat-completion call end to end: `POST /chat/completions?x=1` is
      sent to `https://api.xai.com/v1/chat/completions?x=1` with its headers
      and body, and an upstream 200 reaches the caller with its body. */
  lemma ChatCompletionScenario(upstream: UpstreamRequest -> UpstreamOutcome)
    requires var sent := UpstreamRequest(
                 "https://api.xai.com/v1/chat/completions?x=1", "POST",
                 map["Authorization" := "Bearer k"], Content("{\"model\":\"grok\"}"), true);
             upstream(sent) == Reached(200, "OK", map[], Content("{\"ok\":true}"))
    ensures var request := Request("POST", "/chat/completions", "?x=1",
                                   map["Authorization" := "Bearer k"], Content("{\"model\":\"grok\"}"));
      && Forwarded(request) == UpstreamRequest(
           "https://api.xai.com/v1/chat/completions?x=1", "POST",
           map["Authorization" := "Bearer k"], Content("{\"model\":\"grok\"}"), true)
      && Handle(request, upstream).status == 200
      && Handle(request, upstream).body == Content("{\"ok\":true}")
      && (forall n :: n in Cors.CorsHeaderNames ==> n in Handle(request, upstream).headers)
      && Handle(request, upstream).headers[Cors.AllowOriginName] == ""
  {
    var request := Request("POST", "/chat/completions", "?x=1",
                           map["Authorization" := "Bearer k"], Content("{\"model\":\"grok\"}"));
    Paths.ChatCompletionsTarget();
    Cors.ShippedListEchoesOrigin(request.headers);
  }
}
