/**
 * otel/register.go: Register folds the options over DefaultConfig, derives the
 * OTLP/HTTP exporter options and the resource attributes from the result, and
 * picks the span processor.  The OpenTelemetry SDK objects themselves are
 * represented by the values they are built from.
 */
module OtelRegister {
  import opened Wrappers
  import opened Text
  import opened Errors
  import opened OtelConfig
  import opened OtelOptions
  import opened OtelAttributes

  /** The components of a parsed URL that the exporter reads (url.URL). */
  datatype Url = Url(scheme: string, hostname: string, port: string, path: string)

  /** url.Parse, supplied by the caller: a parse error is its message. */
  type UrlParser = string -> Result<Url, string>

  /** The otlptracehttp options createExporter passes. */
  datatype ExporterOption =
    | ExporterEndpoint(hostPort: string)
    | ExporterURLPath(path: string)
    | ExporterInsecure
    | ExporterHeaders(headers: map<string, string>)

  datatype SpanProcessor = SimpleProcessor | BatchProcessor(timeout: Duration, maxExportBatchSize: int)

  /**
   * The error results of the two SDK constructors Register calls:
   * otlptracehttp.New on the exporter options, and resource.Merge on the
   * resource attributes. None is success.
   */
  datatype SdkErrors = SdkErrors(
    exporterNew: seq<ExporterOption> -> Wrappers.Option<string>,
    resourceMerge: seq<Attr> -> Wrappers.Option<string>)

  /** What Register builds: the configuration, the exporter options, the resource attributes and the processor. */
  datatype Provider = Provider(
    settings: Settings, exporter: seq<ExporterOption>, resource: seq<Attr>,
    processor: SpanProcessor, global: bool)

  const ProjectNameHeader := "x-phoenix-project-name"
  const ResourceProjectName := "openinference.project.name"
  const ServiceNameKey := "service.name"
  const ServiceVersionKey := "service.version"

  /** "http://" in front of an endpoint that has neither scheme prefix. */
  function WithScheme(endpoint: string): (r: string)
    ensures HasPrefix(r, "http://") || HasPrefix(r, "https://")
    ensures HasPrefix(endpoint, "http://") || HasPrefix(endpoint, "https://") ==> r == endpoint
    ensures !(HasPrefix(endpoint, "http://") || HasPrefix(endpoint, "https://")) ==> r == "http://" + endpoint
  {
    if !HasPrefix(endpoint, "http://") && !HasPrefix(endpoint, "https://") then
      assert HasPrefix("http://" + endpoint, "http://") by {
        assert ("http://" + endpoint)[..7] == "http://";
      }
      "http://" + endpoint
    else endpoint
  }

  /** The port, or 443 for https and 6006 otherwise when the URL gives none. */
  function PortOf(u: Url): (port: string)
    ensures u.port != "" ==> port == u.port
    ensures u.port == "" && u.scheme == "https" ==> port == "443"
    ensures u.port == "" && u.scheme != "https" ==> port == "6006"
  {
    if u.port != "" then u.port else if u.scheme == "https" then "443" else "6006"
  }

  /** The base path ("" for "" and "/") followed by /v1/traces. */
  function TracesPath(u: Url): (path: string)
    ensures HasSuffix(path, DefaultHTTPPath)
    ensures u.path == "" || u.path == "/" ==> path == DefaultHTTPPath
    ensures u.path != "" && u.path != "/" ==> path == u.path + DefaultHTTPPath
  {
    var base := if u.path == "" || u.path == "/" then "" else u.path;
    assert (base + DefaultHTTPPath)[|base + DefaultHTTPPath| - |DefaultHTTPPath|..] == DefaultHTTPPath;
    base + DefaultHTTPPath
  }

  /** The exporter headers: the configured ones, then the bearer token and the project name. */
  function HeadersFor(s: Settings): map<string, string> {
    var withKey := if s.apiKey != "" then s.headers["Authorization" := "Bearer " + s.apiKey] else s.headers;
    if s.projectName != "" then withKey[ProjectNameHeader := s.projectName] else withKey
  }

  /** The reference definition of createExporter's options. */
  function ExporterOptions(s: Settings, parse: UrlParser): Result<seq<ExporterOption>, Error> {
    match parse(WithScheme(Effective(s)))
    case Failure(msg) => Failure(Wrapped("invalid endpoint URL: ", Opaque(msg)))
    case Success(u) => Success(OptionsFor(u, HeadersFor(s)))
  }

  /** createExporter: the options, then otlptracehttp.New's error as is. */
  function ExporterBuilt(s: Settings, parse: UrlParser, sdk: SdkErrors): (r: Result<seq<ExporterOption>, Error>)
    ensures ExporterOptions(s, parse).Failure? ==> r == Failure(ExporterOptions(s, parse).error)
    ensures ExporterOptions(s, parse).Success? ==>
      var built := ExporterOptions(s, parse).value;
      (r.Success? <==> sdk.exporterNew(built).None?) &&
      (r.Success? ==> r.value == built) &&
      (r.Failure? ==> r.error == Opaque(sdk.exporterNew(built).value))
  {
    match ExporterOptions(s, parse)
    case Failure(e) => Failure(e)
    case Success(built) =>
      match sdk.exporterNew(built)
      case Some(e) => Failure(Opaque(e))
      case None => Success(built)
  }

  /** The options for a parsed endpoint and the exporter headers. */
  function OptionsFor(u: Url, headers: map<string, string>): seq<ExporterOption> {
    [ExporterEndpoint(u.hostname + ":" + PortOf(u))] + [ExporterURLPath(TracesPath(u))]
      + (if u.scheme == "http" then [ExporterInsecure] else [])
      + (if |headers| > 0 then [ExporterHeaders(headers)] else [])
  }

  /** The header copy loop of createExporter: for k, v := range cfg.Headers { headers[k] = v }. */
  method CopyHeaders(source: map<string, string>) returns (headers: map<string, string>)
    ensures headers == source
  {
    headers := map[];
    var pending := source.Keys;
    while pending != {}
      invariant pending <= source.Keys
      invariant headers == map k | k in source.Keys - pending :: source[k]
      decreases pending
    {
      var k :| k in pending;
      headers := headers[k := source[k]];
      pending := pending - {k};
    }
  }

  /** The headers part of createExporter: a copy, then the bearer token and the project name. */
  method BuildHeaders(cfg: Config) returns (headers: map<string, string>)
    ensures headers == HeadersFor(cfg.Value())
  {
    headers := CopyHeaders(cfg.headers);
    if cfg.apiKey != "" {
      headers := headers["Authorization" := "Bearer " + cfg.apiKey];
    }
    if cfg.projectName != "" {
      headers := headers[ProjectNameHeader := cfg.projectName];
    }
  }

  /** The option list of createExporter for a parsed endpoint. */
  method BuildOptions(u: Url, headers: map<string, string>) returns (opts: seq<ExporterOption>)
    ensures opts == OptionsFor(u, headers)
  {
    var port := u.port;
    if port == "" {
      if u.scheme == "https" {
        port := "443";
      } else {
        port := "6006";
      }
    }
    assert port == PortOf(u);
    opts := [ExporterEndpoint(u.hostname + ":" + port)];
    var basePath := u.path;
    if basePath == "" || basePath == "/" {
      basePath := "";
    }
    assert basePath + DefaultHTTPPath == TracesPath(u);
    opts := opts + [ExporterURLPath(basePath + DefaultHTTPPath)];
    if u.scheme == "http" {
      opts := opts + [ExporterInsecure];
    }
    if |headers| > 0 {
      opts := opts + [ExporterHeaders(headers)];
    }
  }

  /** createExporter: the headers are built in a fresh map; cfg itself is not written. */
  method CreateExporter(cfg: Config, parse: UrlParser, sdk: SdkErrors) returns (res: Result<seq<ExporterOption>, Error>)
    ensures res == ExporterBuilt(cfg.Value(), parse, sdk)
  {
    var endpoint := cfg.EffectiveEndpoint();
    if !HasPrefix(endpoint, "http://") && !HasPrefix(endpoint, "https://") {
      endpoint := "http://" + endpoint;
    }
    assert endpoint == WithScheme(Effective(cfg.Value()));
    var parsed := parse(endpoint);
    if parsed.Failure? {
      return Failure(Wrapped("invalid endpoint URL: ", Opaque(parsed.error)));
    }
    var headers := BuildHeaders(cfg);
    var opts := BuildOptions(parsed.value, headers);
    var err := sdk.exporterNew(opts);
    if err.Some? {
      return Failure(Opaque(err.value));
    }
    res := Success(opts);
  }

  /** createResource: the project name always, the service name and version only when set. */
  function ResourceAttributes(s: Settings): (attrs: seq<Attr>)
    ensures |attrs| >= 1 && attrs[0] == Attr(ResourceProjectName, StringValue(s.projectName))
    ensures Attr(ServiceNameKey, StringValue(s.serviceName)) in attrs <==> s.serviceName != ""
    ensures Attr(ServiceVersionKey, StringValue(s.serviceVersion)) in attrs <==> s.serviceVersion != ""
    ensures |attrs| == 1 + (if s.serviceName != "" then 1 else 0) + (if s.serviceVersion != "" then 1 else 0)
  {
    assert ResourceProjectName[0] != ServiceNameKey[0] && ServiceNameKey[8] != ServiceVersionKey[8];
    var attrs := [Attr(ResourceProjectName, StringValue(s.projectName))];
    var withName := if s.serviceName != "" then attrs + [Attr(ServiceNameKey, StringValue(s.serviceName))] else attrs;
    if s.serviceVersion != "" then withName + [Attr(ServiceVersionKey, StringValue(s.serviceVersion))] else withName
  }

  /** inferProtocol: gRPC exactly for port 4317. */
  function InferProtocol(u: Url): (p: Protocol)
    ensures p == ProtocolGRPC <==> u.port == "4317"
    ensures p != ProtocolGRPC ==> p == ProtocolHTTP
  {
    if u.port == "4317" then ProtocolGRPC else ProtocolHTTP
  }

  /** The processor: batching with the configured timeout and size, or a simple processor. */
  function ProcessorFor(s: Settings): (p: SpanProcessor)
    ensures p.BatchProcessor? <==> s.batch
    ensures p.BatchProcessor? ==> p.timeout == s.batchTimeout && p.maxExportBatchSize == s.batchSize
  {
    if s.batch then BatchProcessor(s.batchTimeout, s.batchSize) else SimpleProcessor
  }

  /** The reference definition of Register. */
  function Registered(env: map<string, string>, opts: seq<OtelOptions.Option>, parse: UrlParser, sdk: SdkErrors): Result<Provider, Error> {
    var s := AppliedAll(DefaultSettings(env), opts);
    match ExporterBuilt(s, parse, sdk)
    case Failure(e) => Failure(Wrapped("failed to create exporter: ", e))
    case Success(exporter) =>
      match sdk.resourceMerge(ResourceAttributes(s))
      case Some(e) => Failure(Wrapped("failed to create resource: ", Opaque(e)))
      case None => Success(Provider(s, exporter, ResourceAttributes(s), ProcessorFor(s), s.setGlobalProvider))
  }

  /** Register: DefaultConfig, the options left to right, the exporter, the resource, the processor. */
  method Register(env: map<string, string>, opts: seq<OtelOptions.Option>, parse: UrlParser, sdk: SdkErrors)
    returns (res: Result<Provider, Error>, cfg: Config)
    ensures fresh(cfg) && cfg.Value() == AppliedAll(DefaultSettings(env), opts)
    ensures res == Registered(env, opts, parse, sdk)
  {
    cfg := DefaultConfig(env);
    ApplyAll(cfg, opts);
    var exporter := CreateExporter(cfg, parse, sdk);
    if exporter.Failure? {
      return Failure(Wrapped("failed to create exporter: ", exporter.error)), cfg;
    }
    var s := cfg.Value();
    var attrs := ResourceAttributes(s);
    var mergeErr := sdk.resourceMerge(attrs);
    if mergeErr.Some? {
      return Failure(Wrapped("failed to create resource: ", Opaque(mergeErr.value))), cfg;
    }
    res := Success(Provider(s, exporter.value, attrs, ProcessorFor(s), s.setGlobalProvider));
  }

  /** The exporter endpoint is host:port, with the scheme's default port when none is given. */
  lemma ExporterEndpointRule(s: Settings, parse: UrlParser)
    requires parse(WithScheme(Effective(s))).Success?
    ensures var u := parse(WithScheme(Effective(s))).value; var r := ExporterOptions(s, parse);
      r.Success? && |r.value| >= 2 &&
      r.value[0] == ExporterEndpoint(u.hostname + ":" + PortOf(u)) &&
      r.value[1] == ExporterURLPath(TracesPath(u))
  {
  }

  /** The insecure option is passed exactly for scheme "http". */
  lemma InsecureIffHttp(s: Settings, parse: UrlParser)
    requires parse(WithScheme(Effective(s))).Success?
    ensures var u := parse(WithScheme(Effective(s))).value; var r := ExporterOptions(s, parse).value;
      ExporterInsecure in r <==> u.scheme == "http"
  {
  }

  /**
   * The exporter headers keep every configured header except those the two
   * Phoenix entries override; the bearer token is present iff there is an API
   * key, the project header iff there is a project name.
   */
  lemma HeadersForRule(s: Settings)
    ensures var h := HeadersFor(s);
      h.Keys == s.headers.Keys
        + (if s.apiKey != "" then {"Authorization"} else {})
        + (if s.projectName != "" then {ProjectNameHeader} else {}) &&
      (s.apiKey != "" ==> h["Authorization"] == "Bearer " + s.apiKey) &&
      (s.projectName != "" ==> h[ProjectNameHeader] == s.projectName) &&
      (forall k :: (k in s.headers && (k != "Authorization" || s.apiKey == "") &&
         (k != ProjectNameHeader || s.projectName == "")) ==> h[k] == s.headers[k])
  {
  }

  /** The header option is passed exactly when there is at least one header, and carries them all. */
  lemma HeaderOptionIffNonEmpty(u: Url, headers: map<string, string>)
    ensures var r := OptionsFor(u, headers);
      (exists i :: 0 <= i < |r| && r[i].ExporterHeaders?) <==> |headers| > 0
    ensures var r := OptionsFor(u, headers);
      forall i :: 0 <= i < |r| && r[i].ExporterHeaders? ==> r[i].headers == headers
  {
    var head := [ExporterEndpoint(u.hostname + ":" + PortOf(u))] + [ExporterURLPath(TracesPath(u))]
      + (if u.scheme == "http" then [ExporterInsecure] else []);
    HeaderTail(head, headers);
  }

  /** After a prefix without a header option, the header option appears exactly when it is appended. */
  lemma HeaderTail(head: seq<ExporterOption>, headers: map<string, string>)
    requires forall i :: 0 <= i < |head| ==> !head[i].ExporterHeaders?
    ensures var r := head + (if |headers| > 0 then [ExporterHeaders(headers)] else []);
      ((exists i :: 0 <= i < |r| && r[i].ExporterHeaders?) <==> |headers| > 0) &&
      (forall i :: 0 <= i < |r| && r[i].ExporterHeaders? ==> r[i].headers == headers)
  {
    var r := head + (if |headers| > 0 then [ExporterHeaders(headers)] else []);
    if |headers| > 0 {
      assert r[|head|].ExporterHeaders?;
    }
  }

  /** Options given to Register override the environment: the last one touching a field wins. */
  lemma RegisterLastOptionWins(env: map<string, string>, pre: seq<OtelOptions.Option>, o: OtelOptions.Option, post: seq<OtelOptions.Option>,
                               parse: UrlParser, sdk: SdkErrors)
    requires forall p :: p in post ==> FieldOf(p) != FieldOf(o)
    requires Registered(env, pre + [o] + post, parse, sdk).Success?
    ensures Get(Registered(env, pre + [o] + post, parse, sdk).value.settings, FieldOf(o)) == Payload(o)
  {
    LastOptionWins(DefaultSettings(env), pre, o, post);
  }

  /** With no options and no environment, Register exports to localhost:6006/v1/traces over plain HTTP. */
  lemma RegisterDefaults(parse: UrlParser, sdk: SdkErrors)
    requires parse(DefaultEndpoint) == Success(Url("http", "localhost", "6006", ""))
    requires forall o :: sdk.exporterNew(o).None?
    requires forall a :: sdk.resourceMerge(a).None?
    ensures var r := Registered(map[], [], parse, sdk);
      r.Success? &&
      r.value.exporter == [ExporterEndpoint("localhost:6006"), ExporterURLPath("/v1/traces"), ExporterInsecure,
                           ExporterHeaders(map[ProjectNameHeader := DefaultProjectName])] &&
      r.value.resource == [Attr(ResourceProjectName, StringValue(DefaultProjectName))] &&
      r.value.processor == SimpleProcessor && r.value.global
  {
    DefaultSettingsEmptyEnvironment();
    assert HasPrefix(DefaultEndpoint, "http://") by { assert DefaultEndpoint[..7] == "http://"; }
    assert WithScheme(Effective(Literal)) == DefaultEndpoint;
    var u := Url("http", "localhost", "6006", "");
    assert u.hostname + ":" + PortOf(u) == "localhost:6006";
    assert TracesPath(u) == "/v1/traces";
    assert HeadersFor(Literal) == map[ProjectNameHeader := DefaultProjectName];
    assert |map[ProjectNameHeader := DefaultProjectName]| == 1;
  }

  /**
   * Register fails exactly when the endpoint does not parse, otlptracehttp.New
   * fails, or resource.Merge fails, checked in that order, each error wrapped
   * with the step that failed.
   */
  lemma RegisterFailures(env: map<string, string>, opts: seq<OtelOptions.Option>, parse: UrlParser, sdk: SdkErrors)
    ensures var s := AppliedAll(DefaultSettings(env), opts); var r := Registered(env, opts, parse, sdk);
      var url := parse(WithScheme(Effective(s)));
      (url.Failure? ==> r == Failure(Wrapped("failed to create exporter: ", Wrapped("invalid endpoint URL: ", Opaque(url.error))))) &&
      (url.Success? && sdk.exporterNew(OptionsFor(url.value, HeadersFor(s))).Some? ==>
        r == Failure(Wrapped("failed to create exporter: ", Opaque(sdk.exporterNew(OptionsFor(url.value, HeadersFor(s))).value)))) &&
      (url.Success? && sdk.exporterNew(OptionsFor(url.value, HeadersFor(s))).None? && sdk.resourceMerge(ResourceAttributes(s)).Some? ==>
        r == Failure(Wrapped("failed to create resource: ", Opaque(sdk.resourceMerge(ResourceAttributes(s)).value)))) &&
      (r.Success? <==> url.Success? && sdk.exporterNew(OptionsFor(url.value, HeadersFor(s))).None? &&
                       sdk.resourceMerge(ResourceAttributes(s)).None?)
  {
  }
}
