/** The request-logging helpers of the services' logger setup: the trace id
    taken from the W3C `traceparent` header (section 3.2 of the W3C Trace
    Context recommendation) or the Zipkin B3 `x-b3-traceid` header, the
    request id, and the health-check filter of automatic request logging. */
module RequestLogging {
  import opened Wrappers
  import Text

  /** A value of Node's incoming headers: a string, or a list for headers
      that may repeat. */
  datatype HeaderValue = Single(text: string) | Multiple(items: seq<string>)

  type Headers = map<string, HeaderValue>

  /** `headers[name]`, undefined when absent. */
  function Header(headers: Headers, name: string): Option<HeaderValue>
  {
    if name in headers then Some(headers[name]) else None
  }

  /** `const [, traceId] = value.split('-')`, kept when non-empty. */
  function TraceparentTraceId(value: string): (r: Option<string>)
    ensures r.Some? ==> r.value != "" && '-' !in r.value
  {
    var parts := Text.Split(value, '-');
    Text.SplitPartsFree(value, '-');
    if |parts| >= 2 && parts[1] != "" then Some(parts[1]) else None
  }

  /** `extractTraceId`: no headers give undefined; a string `traceparent`
      with a non-empty second field gives that field; otherwise a string
      `x-b3-traceid`; otherwise undefined. */
  function ExtractTraceId(headers: Option<Headers>): (r: Option<string>)
    ensures headers.None? ==> r.None?
    ensures r.Some? ==> headers.Some?
  {
    if headers.None? then None
    else
      var fromTraceparent :=
        match Header(headers.value, "traceparent")
        case Some(Single(value)) => TraceparentTraceId(value)
        case _ => None;
      if fromTraceparent.Some? then fromTraceparent
      else match Header(headers.value, "x-b3-traceid")
        case Some(Single(value)) => Some(value)
        case _ => None
  }

  /** A well-formed `traceparent`, `version-traceid-parentid-flags`, yields
      its trace id whatever the B3 header says. */
  lemma W3CTraceparent(headers: Headers, version: string, traceId: string, parentId: string, flags: string)
    requires '-' !in version && '-' !in traceId && traceId != ""
    requires Header(headers, "traceparent") == Some(Single(version + "-" + traceId + "-" + parentId + "-" + flags))
    ensures ExtractTraceId(Some(headers)) == Some(traceId)
  {
    var rest := parentId + "-" + flags;
    Text.SplitAfterFirst(version, traceId + "-" + rest, '-');
    Text.SplitAfterFirst(traceId, rest, '-');
    assert version + "-" + traceId + "-" + parentId + "-" + flags == version + ['-'] + (traceId + ['-'] + rest);
  }

  /** A `traceparent` without a second field, or with an empty one, falls
      back to the B3 header, as does a missing or repeated `traceparent`. */
  lemma B3Fallback(headers: Headers)
    requires match Header(headers, "traceparent")
      case Some(Single(value)) => TraceparentTraceId(value).None?
      case _ => true
    ensures ExtractTraceId(Some(headers)) ==
      match Header(headers, "x-b3-traceid") case Some(Single(value)) => Some(value) case _ => None
  {
  }

  /** A traceparent holding no '-' at all has no trace id. */
  lemma TraceparentWithoutDash(value: string)
    requires '-' !in value
    ensures TraceparentTraceId(value).None?
  {
    Text.SplitWithoutSeparator(value, '-');
  }

  /** The id the logger assigned to the request (`req.id`). */
  datatype RequestId = NoId | TextId(text: string) | NumberId(number: int) | OtherId

  datatype TraceableRequest = TraceableRequest(id: RequestId, headers: Option<Headers>)

  /** `extractRequestId` of the products and logistics services: a string id
      as is, a numeric id in base 10, else the `x-request-id` header or the
      first of its values, else undefined. */
  function ExtractRequestId(req: TraceableRequest): (r: Option<string>)
    ensures req.id.TextId? ==> r == Some(req.id.text)
    ensures req.id.NumberId? ==> r == Some(Text.IntToDecimal(req.id.number))
    ensures !req.id.TextId? && !req.id.NumberId? ==>
      r == (if req.headers.None? then None
            else match Header(req.headers.value, "x-request-id")
              case Some(Single(value)) => Some(value)
              case Some(Multiple(items)) => if |items| > 0 then Some(items[0]) else None
              case None => None)
  {
    match req.id
    case TextId(text) => Some(text)
    case NumberId(number) => Some(Text.IntToDecimal(number))
    case _ =>
      if req.headers.None? then None
      else match Header(req.headers.value, "x-request-id")
        case Some(Single(value)) => Some(value)
        case Some(Multiple(items)) => if |items| > 0 then Some(items[0]) else None
        case None => None
  }

  /** The logger's own id takes precedence over the client's header. */
  lemma LoggerIdWins(text: string, n: int, headers: Option<Headers>)
    ensures ExtractRequestId(TraceableRequest(TextId(text), headers)) == Some(text)
    ensures ExtractRequestId(TraceableRequest(NumberId(n), headers)).Some?
    ensures ExtractRequestId(TraceableRequest(NumberId(42), headers)) == Some("42")
  {
    assert Text.NatToDecimal(42) == "42";
  }

  /** `extractRequestId` of the finance service: `req?.id`. */
  function FinanceExtractRequestId(req: Option<TraceableRequest>): (r: Option<RequestId>)
    ensures r.Some? <==> req.Some?
    ensures r.Some? ==> r.value == req.value.id
  {
    match req
    case None => None
    case Some(request) => Some(request.id)
  }

  /** `shouldSkipAutoLogging` (and the finance service's `autoLogging.ignore`):
      requests whose URL contains "/health" are not logged; a request without
      a URL is. */
  function ShouldSkipAutoLogging(url: Option<string>): (skip: bool)
    ensures skip ==> url.Some?
  {
    url.Some? && Text.Contains(url.value, "/health")
  }

  /** Health probes are skipped wherever "/health" appears; other routes are logged. */
  lemma SkipExamples()
    ensures ShouldSkipAutoLogging(Some("/health"))
    ensures ShouldSkipAutoLogging(Some("/api/health/live"))
    ensures !ShouldSkipAutoLogging(Some("/orders"))
    ensures !ShouldSkipAutoLogging(None)
  {
    assert Text.OccursAt("/health", "/health", 0);
    assert Text.OccursAt("/api/health/live", "/health", 4);
    assert !Text.OccursAt("/orders", "/health", 0) by {
      assert "/orders"[0..7][1] != "/health"[1];
    }
  }
}
