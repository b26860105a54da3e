/**
 * The per-request values the proxy handles: the inbound request, the request
 * it sends upstream, what the upstream call yields, and the response it
 * returns. Header sets are maps from canonical header names to values; the
 * runtime's case-insensitive header lookup is not modelled.
 */
module Http {

  /** A header set, keyed by canonical header name. */
  type HeaderMap = map<string, string>

  /** A request or response body: absent (`null`) or an opaque stream,
      represented by its content. The proxy never inspects a body. */
  datatype Body = Null | Content(text: string)

  /** An inbound request, with its URL already split into pathname and
      search string (the search string keeps its leading `?`, or is empty). */
  datatype Request = Request(
    verb: string,
    pathname: string,
    search: string,
    headers: HeaderMap,
    body: Body)

  /** The request the proxy issues to the upstream API. */
  datatype UpstreamRequest = UpstreamRequest(
    url: string,
    verb: string,
    headers: HeaderMap,
    body: Body,
    followRedirects: bool)

  /** What the upstream call yields: a response (after any redirects were
      followed), or a failure to obtain one (network error, rejected call). */
  datatype UpstreamOutcome =
    | Reached(status: int, statusText: string, headers: HeaderMap, body: Body)
    | Failed

  /** A response handed back to the caller. */
  datatype Response = Response(
    status: int,
    statusText: string,
    headers: HeaderMap,
    body: Body)

  /** A mutable header set, updated in place like the runtime's `Headers`. */
  class Headers {
    var entries: HeaderMap

    /** `new Headers(init)`: a copy of `init`. */
    constructor (init: HeaderMap)
      ensures entries == init
    {
      entries := init;
    }

    /** `headers.set(name, value)`: adds `name` or overwrites its value,
        leaving every other header as it was. */
    method Set(name: string, value: string)
      modifies this
      ensures entries == old(entries)[name := value]
    {
      entries := entries[name := value];
    }
  }
}
