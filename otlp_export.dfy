/**
 * How the axum tracing demo (examples/axum_tracing.rs) chooses where and
 * how to export its spans over OTLP, and when it looks for a remote trace
 * context in a request's headers.
 *
 * Environment variables are inputs: `None` stands for a variable that is
 * unset or not valid Unicode, the two cases in which `std::env::var`
 * returns an error.
 */
module OtlpExport {
  import opened Common

  /** Endpoint used when neither endpoint variable is set: the local collector's gRPC port. */
  const DEFAULT_ENDPOINT: string := "http://127.0.0.1:4317"
  /** Protocol used when OTEL_EXPORTER_OTLP_PROTOCOL is unset. */
  const DEFAULT_PROTOCOL: string := "grpc"
  /** The path OTLP/HTTP collectors accept trace exports on. */
  const TRACES_PATH: string := "/v1/traces"

  /**
   * The endpoint: OTEL_EXPORTER_OTLP_TRACES_ENDPOINT if set, else
   * OTEL_EXPORTER_OTLP_ENDPOINT if set, else the default.
   */
  function SelectEndpoint(tracesEndpoint: Option<string>, endpoint: Option<string>): (r: string)
    ensures tracesEndpoint.Some? ==> r == tracesEndpoint.value
    ensures tracesEndpoint.None? && endpoint.Some? ==> r == endpoint.value
    ensures tracesEndpoint.None? && endpoint.None? ==> r == DEFAULT_ENDPOINT
  {
    match tracesEndpoint
    case Some(e) => e
    case None =>
      match endpoint
      case Some(e) => e
      case None => DEFAULT_ENDPOINT
  }

  /** The protocol: OTEL_EXPORTER_OTLP_PROTOCOL if set, else "grpc". */
  function SelectProtocol(protocol: Option<string>): (r: string)
    ensures protocol.Some? ==> r == protocol.value
    ensures protocol.None? ==> r == DEFAULT_PROTOCOL
  {
    match protocol
    case Some(p) => p
    case None => DEFAULT_PROTOCOL
  }

  /** The two protocol names that select the OTLP/HTTP exporter; the comparison is case-sensitive. */
  predicate IsHttpProtocol(protocol: string): (r: bool)
    ensures r ==> |protocol| >= 4 && protocol[..4] == "http"
  {
    protocol == "http/protobuf" || protocol == "http"
  }

  /** The default protocol, and spellings other than the two exact names, select gRPC. */
  lemma OnlyExactHttpNamesSelectHttp()
    ensures IsHttpProtocol("http") && IsHttpProtocol("http/protobuf")
    ensures !IsHttpProtocol(DEFAULT_PROTOCOL)
    ensures !IsHttpProtocol("HTTP") && !IsHttpProtocol("http/json") && !IsHttpProtocol("https")
  {
  }

  /** Rust's `str::ends_with`. */
  predicate EndsWith(s: string, suffix: string) {
    |suffix| <= |s| && s[|s| - |suffix|..] == suffix
  }

  /** The endpoint given to the HTTP exporter: `endpoint` with the traces path appended unless it is already there. */
  function HttpTracesEndpoint(endpoint: string): (r: string)
    ensures EndsWith(r, TRACES_PATH)
    ensures EndsWith(endpoint, TRACES_PATH) ==> r == endpoint
    ensures !EndsWith(endpoint, TRACES_PATH) ==> r == endpoint + TRACES_PATH
  {
    if EndsWith(endpoint, TRACES_PATH) then endpoint else endpoint + TRACES_PATH
  }

  /** Normalising twice is normalising once. */
  lemma HttpTracesEndpointIdempotent(endpoint: string)
    ensures HttpTracesEndpoint(HttpTracesEndpoint(endpoint)) == HttpTracesEndpoint(endpoint)
  {
  }

  /**
   * Normalisation only ever appends: the configured endpoint is a prefix of
   * the result, and the result is at most the traces path longer.
   */
  lemma HttpTracesEndpointExtends(endpoint: string)
    ensures |endpoint| <= |HttpTracesEndpoint(endpoint)| <= |endpoint| + |TRACES_PATH|
    ensures HttpTracesEndpoint(endpoint)[..|endpoint|] == endpoint
  {
  }

  /** The exporter `init_tracer_provider` builds, with the endpoint it is given. */
  datatype Exporter = HttpExporter(endpoint: string) | GrpcExporter(endpoint: string)

  /** The exporter chosen from the three environment variables. */
  function SelectExporter(tracesEndpoint: Option<string>, endpoint: Option<string>, protocol: Option<string>): (r: Exporter)
    ensures r.HttpExporter? <==> IsHttpProtocol(SelectProtocol(protocol))
    ensures r.HttpExporter? ==> r.endpoint == HttpTracesEndpoint(SelectEndpoint(tracesEndpoint, endpoint))
    ensures r.GrpcExporter? ==> r.endpoint == SelectEndpoint(tracesEndpoint, endpoint)
  {
    var e := SelectEndpoint(tracesEndpoint, endpoint);
    if IsHttpProtocol(SelectProtocol(protocol)) then HttpExporter(HttpTracesEndpoint(e)) else GrpcExporter(e)
  }

  /** With no protocol configured, spans go over gRPC to the selected endpoint, untouched. */
  lemma DefaultsToGrpc(tracesEndpoint: Option<string>, endpoint: Option<string>)
    ensures SelectExporter(tracesEndpoint, endpoint, None) == GrpcExporter(SelectEndpoint(tracesEndpoint, endpoint))
  {
  }

  /** With no variable set at all, the exporter is gRPC to the local collector. */
  lemma UnconfiguredExporter()
    ensures SelectExporter(None, None, None) == GrpcExporter(DEFAULT_ENDPOINT)
  {
  }

  /** Every HTTP exporter endpoint ends with the traces path, and carries it exactly once at the end. */
  lemma HttpExporterEndpoint(tracesEndpoint: Option<string>, endpoint: Option<string>, protocol: Option<string>)
    requires IsHttpProtocol(SelectProtocol(protocol))
    ensures EndsWith(SelectExporter(tracesEndpoint, endpoint, protocol).endpoint, TRACES_PATH)
    ensures HttpTracesEndpoint(SelectExporter(tracesEndpoint, endpoint, protocol).endpoint)
         == SelectExporter(tracesEndpoint, endpoint, protocol).endpoint
  {
  }

  /** One request header. */
  datatype Header = Header(name: string, value: string)

  /**
   * The span context a propagator extracts: the W3C trace and span
   * identifiers (128 and 64 bits), zero when none was found.
   */
  datatype SpanContext = SpanContext(traceId: nat, spanId: nat)

  /** OpenTelemetry's `SpanContext::is_valid`: both identifiers are non-zero. */
  predicate IsValid(ctx: SpanContext) {
    ctx.traceId != 0 && ctx.spanId != 0
  }

  /**
   * `extract_remote_context`: no headers means no remote parent, without
   * asking the propagator; otherwise the propagator's context when it is valid.
   * `propagate` stands for the global W3C trace-context propagator.
   */
  function ExtractRemoteContext(headers: seq<Header>, propagate: seq<Header> -> SpanContext): (r: Option<SpanContext>)
    ensures headers == [] ==> r == None
    ensures r.Some? ==> r.value == propagate(headers) && IsValid(r.value)
    ensures headers != [] && IsValid(propagate(headers)) ==> r == Some(propagate(headers))
  {
    if headers == [] then None
    else
      var ctx := propagate(headers);
      if IsValid(ctx) then Some(ctx) else None
  }

  /**
   * On an empty header map the propagator plays no part. This restates the
   * first clause of `ExtractRemoteContext`'s contract for two propagators side by side.
   */
  lemma EmptyHeadersIgnorePropagator(p: seq<Header> -> SpanContext, q: seq<Header> -> SpanContext)
    ensures ExtractRemoteContext([], p) == ExtractRemoteContext([], q) == None
  {
  }
}
