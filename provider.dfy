/**
 * llmops/provider.go: the Phoenix adapter of the omniobserve llmops
 * interface.  New maps the llmops client settings onto the options of the
 * REST client and of the OTel integration and builds both; the other
 * operations hand tracing to the trace and span wrappers and translate
 * between llmops records and the REST client's.
 *
 * The tracer's new OTel spans, the REST replies and the send errors are
 * inputs, as in the modules the adapter calls.
 */
module LlmopsProvider {
  import opened Wrappers
  import Errors
  import Api
  import Observe
  import Tracing
  import ClientConfig
  import ClientOptions
  import Client
  import OtelConfig
  import OtelOptions
  import OtelRegister
  import Evals
  import Listing
  import Annotations
  import Prompts
  import Datasets
  import Projects

  const ProviderName := "phoenix"

  /** The service name New uses when no project name is configured. */
  const DefaultServiceName := "phoenix-llmops"

  /** The errors the adapter makes itself: APIErrors with only a message. */
  const ModelNameRequired := Errors.Api(Errors.APIError(0, "model name is required (use llmops.WithPromptModel)", ""))
  const ModelProviderRequired := Errors.Api(Errors.APIError(0, "model provider is required (use llmops.WithPromptProvider)", ""))
  const TargetRequired := Errors.Api(Errors.APIError(0, "either SpanID or TraceID must be set", ""))

  // ---- New: the REST client ----------------------------------------------

  /** The phoenix options New passes to NewClient, in its order. */
  function PhoenixOptionsFor(cfg: Observe.ClientConfig): (opts: seq<ClientOptions.ClientOption>)
    ensures forall o :: o in opts ==> !o.WithConfig?
  {
    var withURL := if cfg.endpoint != "" then [ClientOptions.WithURL(cfg.endpoint)] else [];
    var withSpace := if cfg.workspace != "" then withURL + [ClientOptions.WithSpaceID(cfg.workspace)] else withURL;
    var withKey := if cfg.apiKey != "" then withSpace + [ClientOptions.WithAPIKey(cfg.apiKey)] else withSpace;
    var withClient := if cfg.httpClient.Some? then withKey + [ClientOptions.WithHTTPClient(cfg.httpClient.value)] else withKey;
    if cfg.httpTimeout > 0 then withClient + [ClientOptions.WithTimeout(cfg.httpTimeout)] else withClient
  }

  /** What NewClient's fold leaves when no option is WithConfig: the settings, the custom client, the timeout. */
  datatype ClientSetup = ClientSetup(
    settings: ClientConfig.Settings, httpClient: Option<ClientOptions.HttpClient>, timeout: ClientOptions.Duration)

  function SetupStep(c: ClientSetup, opt: ClientOptions.ClientOption): ClientSetup {
    match opt
    case WithHTTPClient(h) => c.(httpClient := Some(h))
    case WithTimeout(t) => c.(timeout := t)
    case _ => c.(settings := ClientOptions.Edit(c.settings, opt))
  }

  function SetupAfter(c: ClientSetup, opts: seq<ClientOptions.ClientOption>): ClientSetup
    decreases |opts|
  {
    if |opts| == 0 then c else SetupStep(SetupAfter(c, opts[..|opts| - 1]), opts[|opts| - 1])
  }

  lemma SetupAfterSnoc(c: ClientSetup, opts: seq<ClientOptions.ClientOption>, o: ClientOptions.ClientOption)
    ensures SetupAfter(c, opts + [o]) == SetupStep(SetupAfter(c, opts), o)
  {
    assert (opts + [o])[..|opts|] == opts;
  }

  /** NewClient's fold over options without WithConfig writes only the current Config, as SetupAfter says. */
  lemma {:induction false} FoldWithoutConfig(st: ClientOptions.FoldState, opts: seq<ClientOptions.ClientOption>)
    requires st.current in st.values
    requires forall o :: o in opts ==> !o.WithConfig?
    ensures ClientOptions.Reaches(st, opts)
    ensures var r := ClientOptions.Folded(st, opts);
      var c := SetupAfter(ClientSetup(st.values[st.current], st.httpClient, st.timeout), opts);
      r.current == st.current && r.values == st.values[st.current := c.settings] &&
      r.httpClient == c.httpClient && r.timeout == c.timeout
    decreases |opts|
  {
    assert forall i :: 0 <= i < |opts| ==> opts[i] in opts;
    if |opts| > 0 {
      var front := opts[..|opts| - 1];
      assert forall o :: o in front ==> o in opts;
      FoldWithoutConfig(st, front);
    }
  }

  /**
   * The client New builds: LoadConfig's settings (the environment over the
   * defaults), the phoenix options folded over them, then NewClient's checks.
   */
  function ClientBuilt(cfg: Observe.ClientConfig, env: map<string, string>, apiNew: string -> Option<Errors.Error>)
    : Result<Client.Built, Errors.Error>
  {
    var c := SetupAfter(ClientSetup(ClientConfig.FromEnv(ClientConfig.Defaults, env), None, ClientOptions.DefaultTimeout),
                        PhoenixOptionsFor(cfg));
    Client.Construction(c.settings, c.httpClient, c.timeout, apiNew)
  }

  /**
   * The phoenix options override the URL, the space ID and the API key only
   * when the llmops value is non-empty, the HTTP client only when one is
   * given and the timeout only when positive; the project name is never
   * passed to the REST client.
   */
  lemma NewClientSetup(cfg: Observe.ClientConfig, init: ClientSetup)
    ensures SetupAfter(init, PhoenixOptionsFor(cfg)) == ClientSetup(
      init.settings.(url := Override(cfg.endpoint, init.settings.url),
                     spaceID := Override(cfg.workspace, init.settings.spaceID),
                     apiKey := Override(cfg.apiKey, init.settings.apiKey)),
      if cfg.httpClient.Some? then cfg.httpClient else init.httpClient,
      if cfg.httpTimeout > 0 then cfg.httpTimeout else init.timeout)
  {
    var withURL := if cfg.endpoint != "" then [ClientOptions.WithURL(cfg.endpoint)] else [];
    var withSpace := if cfg.workspace != "" then withURL + [ClientOptions.WithSpaceID(cfg.workspace)] else withURL;
    var withKey := if cfg.apiKey != "" then withSpace + [ClientOptions.WithAPIKey(cfg.apiKey)] else withSpace;
    var withClient := if cfg.httpClient.Some? then withKey + [ClientOptions.WithHTTPClient(cfg.httpClient.value)] else withKey;
    var c1 := init.(settings := init.settings.(url := Override(cfg.endpoint, init.settings.url)));
    SetupURLStep(init, cfg.endpoint);
    var c2 := c1.(settings := c1.settings.(spaceID := Override(cfg.workspace, c1.settings.spaceID)));
    SetupSpaceStep(init, withURL, c1, cfg.workspace);
    var c3 := c2.(settings := c2.settings.(apiKey := Override(cfg.apiKey, c2.settings.apiKey)));
    SetupKeyStep(init, withSpace, c2, cfg.apiKey);
    var c4 := c3.(httpClient := if cfg.httpClient.Some? then cfg.httpClient else c3.httpClient);
    SetupClientStep(init, withKey, c3, cfg.httpClient);
    SetupTimeoutStep(init, withClient, c4, cfg.httpTimeout);
  }

  lemma SetupURLStep(init: ClientSetup, v: string)
    ensures SetupAfter(init, if v != "" then [ClientOptions.WithURL(v)] else [])
         == init.(settings := init.settings.(url := Override(v, init.settings.url)))
  {
    if v != "" {
      SetupAfterSnoc(init, [], ClientOptions.WithURL(v));
      assert [] + [ClientOptions.WithURL(v)] == [ClientOptions.WithURL(v)];
    }
  }

  lemma SetupSpaceStep(init: ClientSetup, opts: seq<ClientOptions.ClientOption>, x: ClientSetup, v: string)
    requires SetupAfter(init, opts) == x
    ensures SetupAfter(init, if v != "" then opts + [ClientOptions.WithSpaceID(v)] else opts)
         == x.(settings := x.settings.(spaceID := Override(v, x.settings.spaceID)))
  {
    SetupAfterWhen(init, opts, v != "", ClientOptions.WithSpaceID(v));
  }

  lemma SetupKeyStep(init: ClientSetup, opts: seq<ClientOptions.ClientOption>, x: ClientSetup, v: string)
    requires SetupAfter(init, opts) == x
    ensures SetupAfter(init, if v != "" then opts + [ClientOptions.WithAPIKey(v)] else opts)
         == x.(settings := x.settings.(apiKey := Override(v, x.settings.apiKey)))
  {
    SetupAfterWhen(init, opts, v != "", ClientOptions.WithAPIKey(v));
  }

  lemma SetupClientStep(init: ClientSetup, opts: seq<ClientOptions.ClientOption>, x: ClientSetup, h: Option<ClientOptions.HttpClient>)
    requires SetupAfter(init, opts) == x
    ensures SetupAfter(init, if h.Some? then opts + [ClientOptions.WithHTTPClient(h.value)] else opts)
         == x.(httpClient := if h.Some? then h else x.httpClient)
  {
    if h.Some? {
      SetupAfterSnoc(init, opts, ClientOptions.WithHTTPClient(h.value));
    }
  }

  lemma SetupTimeoutStep(init: ClientSetup, opts: seq<ClientOptions.ClientOption>, x: ClientSetup, t: ClientOptions.Duration)
    requires SetupAfter(init, opts) == x
    ensures SetupAfter(init, if t > 0 then opts + [ClientOptions.WithTimeout(t)] else opts)
         == x.(timeout := if t > 0 then t else x.timeout)
  {
    SetupAfterWhen(init, opts, t > 0, ClientOptions.WithTimeout(t));
  }

  /** A non-empty llmops value replaces the configured one. */
  function Override(v: string, current: string): string {
    if v != "" then v else current
  }

  /** An option appended only when its condition holds. */
  lemma SetupAfterWhen(c: ClientSetup, opts: seq<ClientOptions.ClientOption>, cond: bool, o: ClientOptions.ClientOption)
    ensures SetupAfter(c, if cond then opts + [o] else opts)
         == (if cond then SetupStep(SetupAfter(c, opts), o) else SetupAfter(c, opts))
  {
    if cond {
      SetupAfterSnoc(c, opts, o);
    }
  }

  // ---- New: the OTel provider -----------------------------------------------

  /** The project name, else "phoenix-llmops". */
  function ServiceNameFor(cfg: Observe.ClientConfig): string {
    if cfg.projectName != "" then cfg.projectName else DefaultServiceName
  }

  /** The phoenix-otel options New passes to Register, in its order. */
  function OtelOptionsFor(cfg: Observe.ClientConfig): (opts: seq<OtelOptions.Option>)
    ensures |opts| >= 3
    ensures opts[0] == OtelOptions.WithBatch(true) && opts[1] == OtelOptions.WithGlobalProvider(false)
    ensures opts[|opts| - 1] == OtelOptions.WithServiceName(ServiceNameFor(cfg))
  {
    var base := [OtelOptions.WithBatch(true), OtelOptions.WithGlobalProvider(false)];
    var withEndpoint := if cfg.endpoint != "" then base + [OtelOptions.WithEndpoint(cfg.endpoint)] else base;
    var withSpace := if cfg.workspace != "" then withEndpoint + [OtelOptions.WithSpaceID(cfg.workspace)] else withEndpoint;
    var withKey := if cfg.apiKey != "" then withSpace + [OtelOptions.WithAPIKey(cfg.apiKey)] else withSpace;
    var withProject := if cfg.projectName != "" then withKey + [OtelOptions.WithProjectName(cfg.projectName)] else withKey;
    withProject + [OtelOptions.WithServiceName(ServiceNameFor(cfg))]
  }

  lemma AppliedAllSnoc(s: OtelConfig.Settings, opts: seq<OtelOptions.Option>, o: OtelOptions.Option)
    ensures OtelOptions.AppliedAll(s, opts + [o]) == OtelOptions.Applied(OtelOptions.AppliedAll(s, opts), o)
  {
    assert (opts + [o])[..|opts|] == opts;
  }

  /**
   * The OTel configuration New registers: batching on, no global provider,
   * the service name, and endpoint, space ID, API key and project name
   * overridden only by non-empty llmops values.
   */
  lemma NewOtelSettings(cfg: Observe.ClientConfig, s: OtelConfig.Settings)
    ensures OtelOptions.AppliedAll(s, OtelOptionsFor(cfg)) == s.(
      batch := true, setGlobalProvider := false,
      endpoint := Override(cfg.endpoint, s.endpoint),
      spaceID := Override(cfg.workspace, s.spaceID),
      apiKey := Override(cfg.apiKey, s.apiKey),
      projectName := Override(cfg.projectName, s.projectName),
      serviceName := ServiceNameFor(cfg))
  {
    var base := [OtelOptions.WithBatch(true), OtelOptions.WithGlobalProvider(false)];
    var withEndpoint := if cfg.endpoint != "" then base + [OtelOptions.WithEndpoint(cfg.endpoint)] else base;
    var withSpace := if cfg.workspace != "" then withEndpoint + [OtelOptions.WithSpaceID(cfg.workspace)] else withEndpoint;
    var withKey := if cfg.apiKey != "" then withSpace + [OtelOptions.WithAPIKey(cfg.apiKey)] else withSpace;
    var withProject := if cfg.projectName != "" then withKey + [OtelOptions.WithProjectName(cfg.projectName)] else withKey;
    OtelHead(s);
    var s0 := s.(batch := true, setGlobalProvider := false);
    var s1 := s0.(endpoint := Override(cfg.endpoint, s0.endpoint));
    OtelEndpointStep(s, base, s0, cfg.endpoint);
    var s2 := s1.(spaceID := Override(cfg.workspace, s1.spaceID));
    OtelSpaceStep(s, withEndpoint, s1, cfg.workspace);
    var s3 := s2.(apiKey := Override(cfg.apiKey, s2.apiKey));
    OtelKeyStep(s, withSpace, s2, cfg.apiKey);
    var s4 := s3.(projectName := Override(cfg.projectName, s3.projectName));
    OtelProjectStep(s, withKey, s3, cfg.projectName);
    OtelServiceStep(s, withProject, s4, ServiceNameFor(cfg));
  }

  lemma OtelServiceStep(s: OtelConfig.Settings, opts: seq<OtelOptions.Option>, x: OtelConfig.Settings, name: string)
    requires OtelOptions.AppliedAll(s, opts) == x
    ensures OtelOptions.AppliedAll(s, opts + [OtelOptions.WithServiceName(name)]) == x.(serviceName := name)
  {
    AppliedAllSnoc(s, opts, OtelOptions.WithServiceName(name));
  }

  lemma OtelEndpointStep(s: OtelConfig.Settings, opts: seq<OtelOptions.Option>, x: OtelConfig.Settings, v: string)
    requires OtelOptions.AppliedAll(s, opts) == x
    ensures OtelOptions.AppliedAll(s, if v != "" then opts + [OtelOptions.WithEndpoint(v)] else opts)
         == x.(endpoint := Override(v, x.endpoint))
  {
    AppliedAllWhen(s, opts, v != "", OtelOptions.WithEndpoint(v));
  }

  lemma OtelSpaceStep(s: OtelConfig.Settings, opts: seq<OtelOptions.Option>, x: OtelConfig.Settings, v: string)
    requires OtelOptions.AppliedAll(s, opts) == x
    ensures OtelOptions.AppliedAll(s, if v != "" then opts + [OtelOptions.WithSpaceID(v)] else opts)
         == x.(spaceID := Override(v, x.spaceID))
  {
    AppliedAllWhen(s, opts, v != "", OtelOptions.WithSpaceID(v));
  }

  lemma OtelKeyStep(s: OtelConfig.Settings, opts: seq<OtelOptions.Option>, x: OtelConfig.Settings, v: string)
    requires OtelOptions.AppliedAll(s, opts) == x
    ensures OtelOptions.AppliedAll(s, if v != "" then opts + [OtelOptions.WithAPIKey(v)] else opts)
         == x.(apiKey := Override(v, x.apiKey))
  {
    AppliedAllWhen(s, opts, v != "", OtelOptions.WithAPIKey(v));
  }

  lemma OtelProjectStep(s: OtelConfig.Settings, opts: seq<OtelOptions.Option>, x: OtelConfig.Settings, v: string)
    requires OtelOptions.AppliedAll(s, opts) == x
    ensures OtelOptions.AppliedAll(s, if v != "" then opts + [OtelOptions.WithProjectName(v)] else opts)
         == x.(projectName := Override(v, x.projectName))
  {
    AppliedAllWhen(s, opts, v != "", OtelOptions.WithProjectName(v));
  }

  lemma OtelHead(s: OtelConfig.Settings)
    ensures OtelOptions.AppliedAll(s, [OtelOptions.WithBatch(true), OtelOptions.WithGlobalProvider(false)])
         == s.(batch := true, setGlobalProvider := false)
  {
    var first := [OtelOptions.WithBatch(true)];
    AppliedAllSnoc(s, [], OtelOptions.WithBatch(true));
    assert [] + first == first;
    AppliedAllSnoc(s, first, OtelOptions.WithGlobalProvider(false));
    assert first + [OtelOptions.WithGlobalProvider(false)] == [OtelOptions.WithBatch(true), OtelOptions.WithGlobalProvider(false)];
  }

  /** An option appended only when its condition holds. */
  lemma AppliedAllWhen(s: OtelConfig.Settings, opts: seq<OtelOptions.Option>, c: bool, o: OtelOptions.Option)
    ensures OtelOptions.AppliedAll(s, if c then opts + [o] else opts)
         == (if c then OtelOptions.Applied(OtelOptions.AppliedAll(s, opts), o) else OtelOptions.AppliedAll(s, opts))
  {
    if c {
      AppliedAllSnoc(s, opts, o);
    }
  }

  /**
   * The REST client and the exporter get the same endpoint and workspace:
   * a non-empty llmops endpoint is the client URL before validation and the
   * collector endpoint, a non-empty workspace the space ID of both.
   */
  lemma NewSharesEndpoint(cfg: Observe.ClientConfig, env: map<string, string>)
    ensures var c := SetupAfter(ClientSetup(ClientConfig.FromEnv(ClientConfig.Defaults, env), None, ClientOptions.DefaultTimeout),
                                PhoenixOptionsFor(cfg));
      var s := OtelOptions.AppliedAll(OtelConfig.DefaultSettings(env), OtelOptionsFor(cfg));
      (cfg.endpoint != "" ==> c.settings.url == cfg.endpoint && s.endpoint == cfg.endpoint) &&
      (cfg.workspace != "" ==> c.settings.spaceID == cfg.workspace && s.spaceID == cfg.workspace)
  {
    NewClientSetup(cfg, ClientSetup(ClientConfig.FromEnv(ClientConfig.Defaults, env), None, ClientOptions.DefaultTimeout));
    NewOtelSettings(cfg, OtelConfig.DefaultSettings(env));
  }

  // ---- the provider ---------------------------------------------------------

  /** Provider (its tracer is the source of the OTel spans the tracing operations take as inputs). */
  class Provider {
    const client: Client.Client
    const tp: OtelRegister.Provider
    const serviceName: string
    const batchEnabled: bool
    var projectName: string

    constructor (client: Client.Client, tp: OtelRegister.Provider, projectName: string, serviceName: string)
      ensures this.client == client && this.tp == tp && this.projectName == projectName
      ensures this.serviceName == serviceName && batchEnabled
    {
      this.client, this.tp, this.projectName, this.serviceName := client, tp, projectName, serviceName;
      batchEnabled := true;
    }

    // ---- tracing ----

    /** StartTrace: a trace wrapper around the tracer's new span, stored in the trace slot. */
    method StartTrace(ctx: Tracing.Context, name: string, cfg: Observe.TraceOptions, otelSpan: Tracing.OtelSpan,
                      now: Observe.Time, marshal: Tracing.Marshal)
      returns (next: Tracing.Context, t: Tracing.TraceWrapper, err: Option<Errors.Error>)
      modifies otelSpan
      ensures fresh(t) && t.otelSpan == otelSpan && t.name == name && t.startTime == now && t.endTime == None
      ensures otelSpan.attrs == old(otelSpan.attrs) + Tracing.TraceStartAttrs(cfg, marshal)
      ensures otelSpan.events == old(otelSpan.events) && otelSpan.errors == old(otelSpan.errors)
      ensures otelSpan.ended == old(otelSpan.ended)
      ensures next == Tracing.ContextWithTrace(ctx, t) && err == None
    {
      t := new Tracing.TraceWrapper(name, otelSpan, cfg, now, marshal);
      next := Tracing.ContextWithTrace(ctx, t);
      err := None;
    }

    /** StartSpan: a span wrapper whose parent IDs come from the context, stored in the span slot. */
    method StartSpan(ctx: Tracing.Context, name: string, cfg: Observe.SpanOptions, otelSpan: Tracing.OtelSpan,
                     now: Observe.Time, marshal: Tracing.Marshal)
      returns (next: Tracing.Context, s: Tracing.SpanWrapper, err: Option<Errors.Error>)
      modifies otelSpan
      ensures fresh(s) && s.otelSpan == otelSpan && s.name == name && s.spanType == cfg.spanType
      ensures s.traceID == ParentTraceID(ctx) && s.parentSpanID == ParentSpanID(ctx)
      ensures s.startTime == now && s.endTime == None
      ensures otelSpan.attrs == old(otelSpan.attrs) + Tracing.SpanStartAttrs(cfg, marshal)
      ensures otelSpan.events == old(otelSpan.events) && otelSpan.errors == old(otelSpan.errors)
      ensures otelSpan.ended == old(otelSpan.ended)
      ensures next == Tracing.ContextWithSpan(ctx, s) && err == None
    {
      var parentTraceID, parentSpanID := "", "";
      var t := Tracing.TraceFromContext(ctx);
      if t.Some? {
        parentTraceID := t.value.ID();
      }
      var current := Tracing.SpanFromContext(ctx);
      if current.Some? {
        parentSpanID := current.value.ID();
        if parentTraceID == "" {
          parentTraceID := current.value.TraceID();
        }
      }
      s := new Tracing.SpanWrapper(name, otelSpan, parentTraceID, parentSpanID, cfg, now, marshal);
      next := Tracing.ContextWithSpan(ctx, s);
      err := None;
    }

    /** TraceFromContext: the stored trace and whether there is one. */
    method TraceFromContext(ctx: Tracing.Context) returns (t: Option<Tracing.TraceWrapper>, ok: bool)
      ensures t == Tracing.TraceFromContext(ctx) && (ok <==> t.Some?)
    {
      t := Tracing.TraceFromContext(ctx);
      ok := t.Some?;
    }

    /** SpanFromContext: the stored span and whether there is one. */
    method SpanFromContext(ctx: Tracing.Context) returns (s: Option<Tracing.SpanWrapper>, ok: bool)
      ensures s == Tracing.SpanFromContext(ctx) && (ok <==> s.Some?)
    {
      s := Tracing.SpanFromContext(ctx);
      ok := s.Some?;
    }

    /** AddFeedbackScore: the feedback goes to the context's span, else its trace, else ErrNoActiveTrace. */
    method AddFeedbackScore(ctx: Tracing.Context, opts: Observe.FeedbackScoreOpts) returns (err: Option<Errors.Error>)
      modifies FeedbackTarget(ctx)
      ensures err.None? <==> (ctx.span.Some? || ctx.trace.Some?)
      ensures err.Some? ==> err.value == Observe.ErrNoActiveTrace
      ensures forall o :: o in FeedbackTarget(ctx) ==>
        o.events == old(o.events) + [Tracing.Event(Tracing.FeedbackEvent, Tracing.FeedbackAttrs(opts.name, opts.score, Observe.NoFeedbackOptions))] &&
        o.attrs == old(o.attrs) && o.errors == old(o.errors) && o.ended == old(o.ended)
    {
      var s := Tracing.SpanFromContext(ctx);
      if s.Some? {
        s.value.AddFeedbackScore(opts.name, opts.score, Observe.NoFeedbackOptions);
        return None;
      }
      var t := Tracing.TraceFromContext(ctx);
      if t.Some? {
        t.value.AddFeedbackScore(opts.name, opts.score, Observe.NoFeedbackOptions);
        return None;
      }
      err := Some(Observe.ErrNoActiveTrace);
    }

    // ---- evaluation ----

    /** Evaluate: one score per metric in order, the elapsed time, no metadata; it never fails. */
    method Evaluate(input: Observe.EvalInput, metrics: seq<Observe.Metric>, elapsed: Observe.Duration)
      returns (result: Observe.EvalResult, err: Option<Errors.Error>)
      ensures err == None && result.duration == elapsed && result.metadata == map[]
      ensures |result.scores| == |metrics|
      ensures forall i :: 0 <= i < |metrics| ==> result.scores[i] == Evals.ScoreFor(metrics[i], input)
    {
      var scores := Evals.RunMetrics(input, metrics);
      result := Observe.EvalResult(scores, elapsed, map[]);
      err := None;
    }

    // ---- prompts ----

    /**
     * CreatePrompt: a missing model name, then a missing model provider, is
     * refused before any request; otherwise the string prompt is created
     * with the description when non-empty, and the result has no version.
     */
    method CreatePrompt(name: string, template: string, cfg: Observe.PromptOptions,
                        reply: Api.Reply<Api.PromptVersionResponseBody>)
      returns (req: Option<Api.CreatePromptRequestBody>, res: Result<Observe.Prompt, Errors.Error>)
      ensures cfg.modelName == "" ==> req == None && res == Failure(ModelNameRequired)
      ensures cfg.modelName != "" && cfg.modelProvider == "" ==> req == None && res == Failure(ModelProviderRequired)
      ensures cfg.modelName != "" && cfg.modelProvider != "" ==>
        req == Some(Prompts.StringPromptRequest(name, template, cfg.modelName, cfg.modelProvider, cfg.description)) &&
        res == PromptResult(name, Prompts.FetchedVersion(reply), false)
    {
      if cfg.modelName == "" {
        return None, Failure(ModelNameRequired);
      }
      if cfg.modelProvider == "" {
        return None, Failure(ModelProviderRequired);
      }
      var phoenixOpts: seq<Prompts.PromptOption> := [];
      if cfg.description != "" {
        phoenixOpts := phoenixOpts + [Prompts.WithPromptDescription(cfg.description)];
      }
      var sent, pv := Prompts.CreatePrompt(name, template, cfg.modelName, cfg.modelProvider, phoenixOpts, reply);
      req := Some(sent);
      if pv.Failure? {
        return req, Failure(pv.error);
      }
      res := Success(PromptOf(name, pv.value, false));
    }

    /**
     * GetPrompt: with a non-empty version argument, the version tagged so,
     * else (dropping the tag lookup's error) the version with that ID;
     * without one, the latest version.  The version string is the version ID.
     */
    method GetPrompt(name: string, version: seq<string>, byTag: Api.Reply<Api.PromptVersionResponseBody>,
                     byID: Api.Reply<Api.PromptVersionResponseBody>, latest: Api.Reply<Api.PromptVersionResponseBody>)
      returns (lookups: seq<PromptLookup>, res: Result<Observe.Prompt, Errors.Error>)
      ensures |version| > 0 && version[0] != "" && Prompts.FetchedVersion(byTag).Success? ==>
        lookups == [ByTag(name, version[0])] && res == PromptResult(name, Prompts.FetchedVersion(byTag), true)
      ensures |version| > 0 && version[0] != "" && Prompts.FetchedVersion(byTag).Failure? ==>
        lookups == [ByTag(name, version[0]), ByVersionID(version[0])] &&
        res == PromptResult(name, Prompts.FetchedVersion(byID), true)
      ensures (|version| == 0 || version[0] == "") ==>
        lookups == [Latest(name)] && res == PromptResult(name, Prompts.FetchedVersion(latest), true)
      ensures res.Success? ==> res.value.name == name && res.value.version == res.value.id
    {
      var pv;
      if |version| > 0 && version[0] != "" {
        lookups := [ByTag(name, version[0])];
        pv := Prompts.FetchedVersion(byTag);
        if pv.Failure? {
          lookups := lookups + [ByVersionID(version[0])];
          pv := Prompts.FetchedVersion(byID);
          if pv.Failure? {
            return lookups, Failure(pv.error);
          }
        }
      } else {
        lookups := [Latest(name)];
        pv := Prompts.FetchedVersion(latest);
        if pv.Failure? {
          return lookups, Failure(pv.error);
        }
      }
      res := Success(PromptOf(name, pv.value, true));
    }

    /** ListPrompts: the first page (no list options are passed on), each prompt with its ID, name and description only. */
    method ListPrompts(reply: Api.Reply<Api.GetPromptsResponseBody>) returns (res: Result<seq<Observe.Prompt>, Errors.Error>)
      ensures res.Success? <==> reply.Body?
      ensures res.Failure? ==> res.error == Api.Decoded(reply).error
      ensures res.Success? ==> (|res.value| == |reply.body.data| &&
        forall i :: 0 <= i < |reply.body.data| ==> res.value[i] == PromptSummary(Prompts.PromptOf(reply.body.data[i])))
    {
      var _, page := Prompts.ListPrompts([], reply);
      if page.Failure? {
        return Failure(page.error);
      }
      var result := Listing.ConvertAll(page.value.items, PromptSummary);
      res := Success(result);
    }

    // ---- datasets ----

    /** CreateDataset: an empty "create" upload with the description when non-empty; the result has the ID and name only. */
    method CreateDataset(name: string, description: string, reply: Api.Reply<Api.UploadDatasetResponseBody>)
      returns (req: Api.UploadDatasetRequest, res: Result<Observe.Dataset, Errors.Error>)
      ensures req == Datasets.UploadRequest(name, 0, Api.ActionCreate, description)
      ensures res.Success? <==> reply.Body?
      ensures res.Failure? ==> res.error == Api.Decoded(reply).error
      ensures res.Success? ==> res.value == Observe.Dataset(reply.body.data.datasetID, name, "", 0, 0, 0)
    {
      var phoenixOpts: seq<Datasets.DatasetOption> := [];
      if description != "" {
        phoenixOpts := phoenixOpts + [Datasets.WithDatasetDescription(description)];
      }
      var sent, _, ds := Datasets.CreateDataset(name, [], phoenixOpts, reply);
      req := sent;
      if ds.Failure? {
        return req, Failure(ds.error);
      }
      res := Success(Observe.Dataset(ds.value.id, ds.value.name, "", 0, 0, 0));
    }

    /**
     * GetDataset: the first dataset of the first listed page with the given
     * name, with all its fields; ErrDatasetNotFound when none has it.
     */
    method GetDataset(name: string, reply: Api.Reply<Api.ListDatasetsResponseBody>)
      returns (res: Result<Observe.Dataset, Errors.Error>)
      ensures !reply.Body? ==> res == Failure(Api.Decoded(reply).error)
      ensures reply.Body? && res.Success? ==>
        exists i :: FirstNamed(reply.body.data, name, i) && res.value == DatasetView(Datasets.DatasetOf(reply.body.data[i]))
      ensures reply.Body? && res.Failure? ==>
        res.error == Observe.ErrDatasetNotFound && forall i :: 0 <= i < |reply.body.data| ==> reply.body.data[i].name != name
    {
      var _, page := Datasets.ListDatasets([], reply);
      if page.Failure? {
        return Failure(page.error);
      }
      var items := page.value.items;
      var i := 0;
      while i < |items|
        invariant 0 <= i <= |items|
        invariant forall j :: 0 <= j < i ==> reply.body.data[j].name != name
      {
        if items[i].name == name {
          assert FirstNamed(reply.body.data, name, i);
          return Success(DatasetView(items[i]));
        }
        i := i + 1;
      }
      res := Failure(Observe.ErrDatasetNotFound);
    }

    /** GetDatasetByID: the REST client's dataset, which carries only the ID and the name. */
    method GetDatasetByID(reply: Api.Reply<Api.GetDatasetResponseBody>) returns (res: Result<Observe.Dataset, Errors.Error>)
      ensures res.Success? <==> reply.Body?
      ensures res.Failure? ==> res.error == Api.Decoded(reply).error
      ensures res.Success? ==> res.value == Observe.Dataset(reply.body.data.id, reply.body.data.name, "", 0, 0, 0)
    {
      var ds := Datasets.FetchedDataset(reply);
      if ds.Failure? {
        return Failure(ds.error);
      }
      res := Success(DatasetView(ds.value));
    }

    /** AddDatasetItems: one example per item in order, Expected as the Output; then an "append" upload. */
    method AddDatasetItems(datasetName: string, items: seq<Observe.DatasetItem>, sendErr: Option<Errors.Error>)
      returns (examples: seq<Datasets.DatasetExample>, req: Api.UploadDatasetRequest, err: Option<Errors.Error>)
      ensures |examples| == |items|
      ensures forall i :: 0 <= i < |items| ==>
        examples[i] == Datasets.DatasetExample(items[i].input, items[i].expected, items[i].metadata)
      ensures req == Datasets.UploadRequest(datasetName, |items|, Api.ActionAppend, "")
      ensures err == sendErr
    {
      examples := [];
      var i := 0;
      while i < |items|
        invariant 0 <= i <= |items|
        invariant |examples| == i
        invariant forall j :: 0 <= j < i ==>
          examples[j] == Datasets.DatasetExample(items[j].input, items[j].expected, items[j].metadata)
      {
        examples := examples + [Datasets.DatasetExample(items[i].input, items[i].expected, items[i].metadata)];
        i := i + 1;
      }
      var params;
      req, params, err := Datasets.AddDatasetExamples(datasetName, examples, sendErr);
    }

    /** ListDatasets: the first page, every dataset with all its fields. */
    method ListDatasets(reply: Api.Reply<Api.ListDatasetsResponseBody>) returns (res: Result<seq<Observe.Dataset>, Errors.Error>)
      ensures res.Success? <==> reply.Body?
      ensures res.Failure? ==> res.error == Api.Decoded(reply).error
      ensures res.Success? ==> (|res.value| == |reply.body.data| &&
        forall i :: 0 <= i < |reply.body.data| ==> res.value[i] == DatasetView(Datasets.DatasetOf(reply.body.data[i])))
    {
      var _, page := Datasets.ListDatasets([], reply);
      if page.Failure? {
        return Failure(page.error);
      }
      var result := Listing.ConvertAll(page.value.items, DatasetView);
      res := Success(result);
    }

    /** DeleteDataset: the REST client's delete for that ID, its error returned as is. */
    method DeleteDataset(datasetID: string, sendErr: Option<Errors.Error>) returns (deleted: string, err: Option<Errors.Error>)
      ensures deleted == datasetID && err == sendErr
    {
      deleted, err := datasetID, sendErr;
    }

    // ---- projects ----

    /** CreateProject: the description is sent when non-empty, but the created project comes back without one. */
    method CreateProject(name: string, description: string, reply: Api.Reply<Api.ProjectResponseBody>)
      returns (req: Api.CreateProjectRequestBody, res: Result<Observe.Project, Errors.Error>)
      ensures req.name == name
      ensures req.description == (if description != "" then Api.SetTo(description) else Api.NoString)
      ensures res.Success? <==> reply.Body?
      ensures res.Failure? ==> res.error == Api.Decoded(reply).error
      ensures res.Success? ==> res.value == Observe.Project(reply.body.data.id, reply.body.data.name, "", 0, 0)
    {
      var phoenixOpts: seq<Projects.ProjectOption> := [];
      if description != "" {
        phoenixOpts := phoenixOpts + [Projects.WithDescription(description)];
      }
      assert Projects.ProjectAppliedAll(Projects.NoProjectSettings, phoenixOpts).description == description by {
        if description != "" {
          assert phoenixOpts[..0] == [];
        }
      }
      var project;
      req, project := Projects.CreateProject(name, phoenixOpts, reply);
      if project.Failure? {
        return req, Failure(project.error);
      }
      res := Success(ProjectView(project.value));
    }

    /** GetProject: the REST client's project, which carries only the ID and the name. */
    method GetProject(reply: Api.Reply<Api.ProjectResponseBody>) returns (res: Result<Observe.Project, Errors.Error>)
      ensures res.Success? <==> reply.Body?
      ensures res.Failure? ==> res.error == Api.Decoded(reply).error
      ensures res.Success? ==> res.value == Observe.Project(reply.body.data.id, reply.body.data.name, "", 0, 0)
    {
      var project := Projects.FetchedProject(reply);
      if project.Failure? {
        return Failure(project.error);
      }
      res := Success(ProjectView(project.value));
    }

    /** ListProjects: the first page, every project converted. */
    method ListProjects(reply: Api.Reply<Api.GetProjectsResponseBody>) returns (res: Result<seq<Observe.Project>, Errors.Error>)
      ensures res.Success? <==> reply.Body?
      ensures res.Failure? ==> res.error == Api.Decoded(reply).error
      ensures res.Success? ==> (|res.value| == |reply.body.data| &&
        forall i :: 0 <= i < |reply.body.data| ==> res.value[i] == ProjectView(Projects.ProjectOf(reply.body.data[i])))
    {
      var _, page := Projects.ListProjects([], reply);
      if page.Failure? {
        return Failure(page.error);
      }
      var result := Listing.ConvertAll(page.value.items, ProjectView);
      res := Success(result);
    }

    /** SetProject: only the provider's own project name; the REST client's configuration keeps its project. */
    method SetProject(name: string) returns (err: Option<Errors.Error>)
      modifies this
      ensures projectName == name && err == None
      ensures client.config.Value() == old(client.config.Value())
    {
      projectName := name;
      err := None;
    }

    // ---- annotations ----

    /**
     * CreateAnnotation: on the span when SpanID is set, else on the trace
     * when TraceID is set, else an APIError and no request; the options are
     * the mapped source, and explanation and label when non-empty.
     */
    method CreateAnnotation(a: Observe.Annotation, sendErr: Option<Errors.Error>)
      returns (spanReq: Option<Api.AnnotateSpansRequestBody>, traceReq: Option<Api.AnnotateTracesRequestBody>,
               err: Option<Errors.Error>)
      ensures a.spanID != "" ==>
        spanReq == Some(Annotations.SpanRequest(a.spanID, a.name, a.score, AnnotationSettingsFor(a))) &&
        traceReq == None && err == sendErr
      ensures a.spanID == "" && a.traceID != "" ==>
        spanReq == None && traceReq == Some(Annotations.TraceRequest(a.traceID, a.name, a.score, AnnotationSettingsFor(a))) &&
        err == sendErr
      ensures a.spanID == "" && a.traceID == "" ==> spanReq == None && traceReq == None && err == Some(TargetRequired)
    {
      var source := SourceFor(a.source);
      var opts := [Annotations.WithAnnotationSource(source)];
      if a.explanation != "" {
        opts := opts + [Annotations.WithAnnotationExplanation(a.explanation)];
      }
      if a.labelText != "" {
        opts := opts + [Annotations.WithAnnotationLabel(a.labelText)];
      }
      assert opts == AnnotationOptionsFor(a);
      AnnotationOptionsSettle(a);
      spanReq, traceReq := None, None;
      if a.spanID != "" {
        var r;
        r, err := Annotations.CreateSpanAnnotation(a.spanID, a.name, a.score, opts, sendErr);
        spanReq := Some(r);
        return;
      }
      if a.traceID != "" {
        var r;
        r, err := Annotations.CreateTraceAnnotation(a.traceID, a.name, a.score, opts, sendErr);
        traceReq := Some(r);
        return;
      }
      err := Some(TargetRequired);
    }

    /**
     * ListAnnotations: the span annotations when span IDs are given, then
     * the trace annotations when trace IDs are given; the first failing
     * call's error, and no call for an empty ID list.  `spanQuery` and
     * `traceQuery` are the queries sent, None for a call not made.
     */
    method ListAnnotations(opts: Observe.ListAnnotationsOptions, spanReply: Api.Reply<Api.SpanAnnotationsResponseBody>,
                           traceReply: Api.Reply<Api.TraceAnnotationsResponseBody>)
      returns (spanQuery: Option<Api.ListSpanAnnotationsParams>, traceQuery: Option<Api.ListTraceAnnotationsParams>,
               res: Result<seq<Observe.Annotation>, Errors.Error>)
      ensures spanQuery == (if |opts.spanIDs| > 0 then Some(Api.ListSpanAnnotationsParams(opts.spanIDs)) else None)
      ensures traceQuery == (if |opts.traceIDs| > 0 && (|opts.spanIDs| == 0 || spanReply.Body?)
                             then Some(Api.ListTraceAnnotationsParams(opts.traceIDs)) else None)
      ensures res.Success? <==> (|opts.spanIDs| == 0 || spanReply.Body?) && (|opts.traceIDs| == 0 || traceReply.Body?)
      ensures |opts.spanIDs| > 0 && !spanReply.Body? ==> res == Failure(Api.Decoded(spanReply).error)
      ensures (|opts.spanIDs| == 0 || spanReply.Body?) && |opts.traceIDs| > 0 && !traceReply.Body? ==>
        res == Failure(Api.Decoded(traceReply).error)
      ensures res.Success? ==> res.value == SpanListed(opts, spanReply) + TraceListed(opts, traceReply)
    {
      spanQuery, traceQuery := None, None;
      var spans: seq<Observe.Annotation> := [];
      if |opts.spanIDs| > 0 {
        var q, anns := Annotations.ListSpanAnnotations(opts.spanIDs, spanReply);
        spanQuery := Some(q);
        if anns.Failure? {
          return spanQuery, traceQuery, Failure(anns.error);
        }
        spans := Listing.ConvertAll(anns.value, ConvertAnnotation);
      }
      assert spans == SpanListed(opts, spanReply);
      var traces: seq<Observe.Annotation> := [];
      if |opts.traceIDs| > 0 {
        var q, anns := Annotations.ListTraceAnnotations(opts.traceIDs, traceReply);
        traceQuery := Some(q);
        if anns.Failure? {
          return spanQuery, traceQuery, Failure(anns.error);
        }
        traces := Listing.ConvertAll(anns.value, ConvertAnnotation);
      }
      assert traces == TraceListed(opts, traceReply);
      res := Success(spans + traces);
    }
  }

  /** The REST half of New: phoenix.NewClient with the options built from the llmops configuration. */
  method NewPhoenixClient(cfg: Observe.ClientConfig, env: map<string, string>, apiNew: string -> Option<Errors.Error>)
    returns (res: Result<Client.Client, Errors.Error>)
    ensures var built := ClientBuilt(cfg, env, apiNew);
      (res.Success? <==> built.Success?) && (built.Failure? ==> res == Failure(built.error)) &&
      (res.Success? ==> (fresh(res.value) && fresh(res.value.config) &&
        res.value.config.Value() == built.value.settings &&
        res.value.transport == built.value.transport && res.value.serverURL == built.value.settings.url))
  {
    var phoenixOpts := PhoenixOptionsFor(cfg);
    NoCarriedConfigs(phoenixOpts);
    var clientRes, options, loaded := Client.NewClient(env, phoenixOpts, apiNew);
    FoldWithoutConfig(ClientOptions.FoldState(loaded, map[loaded := ClientConfig.FromEnv(ClientConfig.Defaults, env)],
                                              None, ClientOptions.DefaultTimeout), phoenixOpts);
    res := clientRes;
  }

  /**
   * New: the REST client from the mapped phoenix options, then the OTel
   * provider from the mapped phoenix-otel options; the first error as is.
   * `apiNew`, `parse` and `sdk` stand for api.NewClient, url.Parse and the
   * error results of otlptracehttp.New and resource.Merge.
   */
  method New(cfg: Observe.ClientConfig, env: map<string, string>, apiNew: string -> Option<Errors.Error>,
             parse: OtelRegister.UrlParser, sdk: OtelRegister.SdkErrors)
    returns (res: Result<Provider, Errors.Error>)
    ensures var built := ClientBuilt(cfg, env, apiNew);
      var reg := OtelRegister.Registered(env, OtelOptionsFor(cfg), parse, sdk);
      (res.Success? <==> built.Success? && reg.Success?) &&
      (built.Failure? ==> res == Failure(built.error)) &&
      (built.Success? && reg.Failure? ==> res == Failure(reg.error))
    ensures res.Success? ==> (
      var built := ClientBuilt(cfg, env, apiNew).value;
      fresh(res.value) && fresh(res.value.client) && fresh(res.value.client.config) &&
      res.value.client.config.Value() == built.settings &&
      res.value.client.transport == built.transport && res.value.client.serverURL == built.settings.url &&
      res.value.tp == OtelRegister.Registered(env, OtelOptionsFor(cfg), parse, sdk).value &&
      res.value.projectName == cfg.projectName && res.value.serviceName == ServiceNameFor(cfg) &&
      res.value.batchEnabled)
  {
    var clientRes := NewPhoenixClient(cfg, env, apiNew);
    if clientRes.Failure? {
      return Failure(clientRes.error);
    }

    var otelOpts := OtelOptionsFor(cfg);
    var serviceName := ServiceNameFor(cfg);
    var tp, _ := OtelRegister.Register(env, otelOpts, parse, sdk);
    if tp.Failure? {
      return Failure(tp.error);
    }
    var p := new Provider(clientRes.value, tp.value, cfg.projectName, serviceName);
    res := Success(p);
  }

  /** Options without WithConfig carry no configuration, so NewClient's fold writes nothing the caller holds. */
  lemma NoCarriedConfigs(opts: seq<ClientOptions.ClientOption>)
    requires forall o :: o in opts ==> !o.WithConfig?
    ensures ClientOptions.ConfigsOf(opts) == {}
  {
    var cs := ClientOptions.ConfigsOf(opts);
    if c :| c in cs {
      var i :| 0 <= i < |opts| && opts[i] == ClientOptions.WithConfig(c);
      assert opts[i] in opts;
    }
  }

  // ---- context parents ------------------------------------------------------

  /** The OTel span AddFeedbackScore writes to: the context span's, else the context trace's, else none. */
  function FeedbackTarget(ctx: Tracing.Context): (target: set<Tracing.OtelSpan>)
    ensures |target| <= 1
    ensures target == {} <==> ctx.span.None? && ctx.trace.None?
  {
    if ctx.span.Some? then {ctx.span.value.otelSpan}
    else if ctx.trace.Some? then {ctx.trace.value.otelSpan}
    else {}
  }

  /** The parent trace ID StartSpan uses: the context trace's ID, else the context span's trace ID, else "". */
  function ParentTraceID(ctx: Tracing.Context): (id: string)
    ensures ctx.trace.Some? && ctx.trace.value.ID() != "" ==> id == ctx.trace.value.ID()
    ensures (ctx.trace.None? || ctx.trace.value.ID() == "") && ctx.span.Some? ==> id == ctx.span.value.TraceID()
    ensures ctx.trace.None? && ctx.span.None? ==> id == ""
  {
    var fromTrace := if ctx.trace.Some? then ctx.trace.value.ID() else "";
    if fromTrace == "" && ctx.span.Some? then ctx.span.value.TraceID() else fromTrace
  }

  /** The parent span ID StartSpan uses: the context span's ID, else "". */
  function ParentSpanID(ctx: Tracing.Context): (id: string)
    ensures ctx.span.Some? ==> id == ctx.span.value.ID()
    ensures ctx.span.None? ==> id == ""
  {
    if ctx.span.Some? then ctx.span.value.ID() else ""
  }

  /**
   * A span started by StartSpan keeps its parents' trace: a span nested in
   * its context sees the same parent trace ID, and has it as its parent span.
   */
  lemma NestedSpanKeepsTrace(ctx: Tracing.Context, s: Tracing.SpanWrapper)
    requires s.traceID == ParentTraceID(ctx) && ParentTraceID(ctx) != ""
    ensures ParentTraceID(Tracing.ContextWithSpan(ctx, s)) == ParentTraceID(ctx)
    ensures ParentSpanID(Tracing.ContextWithSpan(ctx, s)) == s.ID()
  {
    var next := Tracing.ContextWithSpan(ctx, s);
    assert next.trace == ctx.trace && next.span == Some(s);
    if ctx.trace.None? || ctx.trace.value.ID() == "" {
      assert s.TraceID() == s.traceID;
    }
  }

  // ---- prompts ----------------------------------------------------------------

  datatype PromptLookup = ByTag(promptName: string, tag: string) | ByVersionID(versionID: string) | Latest(promptName: string)

  /** The llmops Prompt of a fetched version: the given name, and the version ID as the version when asked. */
  function PromptOf(name: string, pv: Prompts.PromptVersion, versioned: bool): Observe.Prompt {
    Observe.Prompt(pv.id, name, if versioned then pv.id else "", pv.template, pv.description, pv.modelName, pv.modelProvider)
  }

  function PromptResult(name: string, fetched: Result<Prompts.PromptVersion, Errors.Error>, versioned: bool)
    : Result<Observe.Prompt, Errors.Error>
  {
    match fetched
    case Failure(e) => Failure(e)
    case Success(pv) => Success(PromptOf(name, pv, versioned))
  }

  /** ListPrompts' element: ID, name and description; nothing else is filled. */
  function PromptSummary(p: Prompts.Prompt): Observe.Prompt {
    Observe.Prompt(p.id, p.name, "", "", p.description, "", "")
  }

  /**
   * A prompt CreatePrompt sends, stored and returned by the server, comes
   * back with the given name, template, model name and provider and with the
   * stored description; it has no version, while GetPrompt of the same
   * version gives the version ID as its version.
   */
  lemma CreatedPromptRoundTrip(name: string, template: string, cfg: Observe.PromptOptions, id: string,
                               storedDescription: Api.Nil<string>)
    ensures var v := Prompts.StringPromptRequest(name, template, cfg.modelName, cfg.modelProvider, cfg.description).version;
      var reply := Api.Body(Api.PromptVersionResponseBody(Api.PromptVersion(id, storedDescription, v.modelName, v.modelProvider,
                                                                     v.templateType, v.template)));
      var created := PromptResult(name, Prompts.FetchedVersion(reply), false);
      var fetched := PromptResult(name, Prompts.FetchedVersion(reply), true);
      created.Success? && fetched.Success? &&
      created.value.id == id && created.value.name == name && created.value.template == template &&
      created.value.modelName == cfg.modelName && created.value.modelProvider == cfg.modelProvider &&
      created.value.version == "" && fetched.value == created.value.(version := id)
  {
    var v := Prompts.StringPromptRequest(name, template, cfg.modelName, cfg.modelProvider, cfg.description).version;
    Prompts.StringPromptRoundTrip(name, template, cfg.modelName, cfg.modelProvider, cfg.description, id, storedDescription);
  }

  // ---- datasets and projects ----------------------------------------------------

  /** The index of the first dataset with the name. */
  predicate FirstNamed(ds: seq<Api.Dataset>, name: string, i: int) {
    0 <= i < |ds| && ds[i].name == name && forall j :: 0 <= j < i ==> ds[j].name != name
  }

  /** There is at most one first match, so GetDataset's result is determined by the listing. */
  lemma FirstNamedUnique(ds: seq<Api.Dataset>, name: string, i: int, j: int)
    requires FirstNamed(ds, name, i) && FirstNamed(ds, name, j)
    ensures i == j
  {
  }

  function DatasetView(d: Datasets.Dataset): Observe.Dataset {
    Observe.Dataset(d.id, d.name, d.description, d.exampleCount, d.createdAt, d.updatedAt)
  }

  function ProjectView(p: Projects.Project): Observe.Project {
    Observe.Project(p.id, p.name, p.description, p.createdAt, p.updatedAt)
  }

  // ---- annotations --------------------------------------------------------------

  /** The llmops source sent as the phoenix kind: LLM and Code map over, every other kind to HUMAN. */
  function SourceFor(k: Observe.AnnotatorKind): (source: Annotations.AnnotatorKind)
    ensures source in {Annotations.Human, Annotations.LLM, Annotations.Code}
    ensures source == Annotations.LLM <==> k.AnnotatorKindLLM?
    ensures source == Annotations.Code <==> k.AnnotatorKindCode?
    ensures source == Annotations.Human <==> !k.AnnotatorKindLLM? && !k.AnnotatorKindCode?
  {
    KindNamesDiffer();
    match k
    case AnnotatorKindLLM => Annotations.LLM
    case AnnotatorKindCode => Annotations.Code
    case _ => Annotations.Human
  }

  /** The phoenix kind read back as the llmops kind (convertAnnotation): LLM and CODE map back, anything else is Human. */
  function KindOf(source: Annotations.AnnotatorKind): (k: Observe.AnnotatorKind)
    ensures !k.OtherKind?
    ensures k.AnnotatorKindLLM? <==> source == Annotations.LLM
    ensures k.AnnotatorKindCode? <==> source == Annotations.Code
    ensures k.AnnotatorKindHuman? <==> source != Annotations.LLM && source != Annotations.Code
  {
    KindNamesDiffer();
    if source == Annotations.LLM then Observe.AnnotatorKindLLM
    else if source == Annotations.Code then Observe.AnnotatorKindCode
    else Observe.AnnotatorKindHuman
  }

  /** The three phoenix kind names differ. */
  lemma KindNamesDiffer()
    ensures Annotations.LLM != Annotations.Code && Annotations.LLM != Annotations.Human && Annotations.Code != Annotations.Human
  {
    assert Annotations.LLM[0] != Annotations.Code[0] && Annotations.LLM[0] != Annotations.Human[0];
    assert Annotations.Code[0] != Annotations.Human[0];
  }

  /** The kind an annotation keeps through the adapter: its own for Human, LLM and Code, Human for any other. */
  function Normalised(k: Observe.AnnotatorKind): Observe.AnnotatorKind {
    if k.OtherKind? then Observe.AnnotatorKindHuman else k
  }

  /** Mapping a kind out and back, through the SDK's and the API's kinds, normalises it. */
  lemma KindRoundTrip(k: Observe.AnnotatorKind)
    ensures KindOf(SourceFor(k)) == Normalised(k)
    ensures KindOf(Annotations.ResponseKind(Annotations.RequestKind(SourceFor(k)))) == Normalised(k)
  {
    Annotations.KindRoundTrip(SourceFor(k));
    KindNamesDiffer();
  }

  /** The options CreateAnnotation passes: the source, then explanation and label when non-empty. */
  function AnnotationOptionsFor(a: Observe.Annotation): seq<Annotations.AnnotationOption> {
    var base := [Annotations.WithAnnotationSource(SourceFor(a.source))];
    var withExplanation := if a.explanation != "" then base + [Annotations.WithAnnotationExplanation(a.explanation)] else base;
    if a.labelText != "" then withExplanation + [Annotations.WithAnnotationLabel(a.labelText)] else withExplanation
  }

  /** The annotation settings the request is built from. */
  function AnnotationSettingsFor(a: Observe.Annotation): Annotations.AnnotationSettings {
    Annotations.AnnotationSettings(a.explanation, a.labelText, SourceFor(a.source))
  }

  /** Folding those options gives the annotation's explanation, label and mapped source, whether or not each was passed. */
  lemma AnnotationOptionsSettle(a: Observe.Annotation)
    ensures Annotations.AnnotationAppliedAll(Annotations.NoAnnotationSettings, AnnotationOptionsFor(a)) == AnnotationSettingsFor(a)
  {
    var none := Annotations.NoAnnotationSettings;
    var base := [Annotations.WithAnnotationSource(SourceFor(a.source))];
    var withExplanation := if a.explanation != "" then base + [Annotations.WithAnnotationExplanation(a.explanation)] else base;
    assert base[..0] == [];
    assert Annotations.AnnotationAppliedAll(none, base) == none.(source := SourceFor(a.source));
    if a.explanation != "" {
      assert withExplanation[..1] == base;
    }
    assert Annotations.AnnotationAppliedAll(none, withExplanation)
        == none.(source := SourceFor(a.source), explanation := a.explanation);
    if a.labelText != "" {
      var all := withExplanation + [Annotations.WithAnnotationLabel(a.labelText)];
      assert all[..|all| - 1] == withExplanation;
      assert Annotations.AnnotationAppliedAll(none, all)
          == Annotations.AnnotationApplied(Annotations.AnnotationAppliedAll(none, withExplanation), all[|all| - 1]);
    }
  }

  /** convertAnnotation on a non-nil annotation: every field copied, the source mapped by KindOf. */
  function ConvertAnnotation(ann: Annotations.Annotation): (r: Observe.Annotation)
    ensures r.id == ann.id && r.spanID == ann.spanID && r.traceID == ann.traceID && r.name == ann.name
    ensures r.score == ann.score && r.labelText == ann.labelText && r.explanation == ann.explanation
    ensures r.createdAt == ann.createdAt && r.updatedAt == ann.updatedAt
    ensures !r.source.OtherKind?
    ensures ann.source in {Annotations.Human, Annotations.LLM, Annotations.Code} ==> SourceFor(r.source) == ann.source
    ensures ann.source != Annotations.LLM && ann.source != Annotations.Code ==> r.source.AnnotatorKindHuman?
  {
    Observe.Annotation(ann.id, ann.spanID, ann.traceID, ann.name, ann.score, ann.labelText, ann.explanation,
                       KindOf(ann.source), ann.createdAt, ann.updatedAt)
  }

  /** The span part of ListAnnotations: nothing without span IDs, else every span annotation converted in order. */
  function SpanListed(opts: Observe.ListAnnotationsOptions, reply: Api.Reply<Api.SpanAnnotationsResponseBody>)
    : (xs: seq<Observe.Annotation>)
    requires |opts.spanIDs| == 0 || reply.Body?
    ensures |opts.spanIDs| > 0 ==> forall i :: 0 <= i < |xs| ==> xs[i].traceID == ""
  {
    if |opts.spanIDs| == 0 then []
    else (seq(|reply.body.data|, i requires 0 <= i < |reply.body.data| =>
            ConvertAnnotation(Annotations.SpanAnnotationOf(reply.body.data[i]))))
  }

  /** The trace part of ListAnnotations. */
  function TraceListed(opts: Observe.ListAnnotationsOptions, reply: Api.Reply<Api.TraceAnnotationsResponseBody>)
    : (xs: seq<Observe.Annotation>)
    requires |opts.traceIDs| == 0 || reply.Body?
    ensures |opts.traceIDs| > 0 ==> forall i :: 0 <= i < |xs| ==> xs[i].spanID == ""
  {
    if |opts.traceIDs| == 0 then []
    else (seq(|reply.body.data|, i requires 0 <= i < |reply.body.data| =>
            ConvertAnnotation(Annotations.TraceAnnotationOf(reply.body.data[i]))))
  }

  /**
   * An annotation CreateAnnotation sends for a span, stored and listed
   * back, is the same annotation with the server's ID and timestamps, no
   * trace ID and its kind normalised.
   */
  lemma SpanAnnotationRoundTrip(a: Observe.Annotation, id: string, createdAt: Api.Time, updatedAt: Api.Time)
    requires a.spanID != ""
    ensures var item := Annotations.SpanRequest(a.spanID, a.name, a.score, AnnotationSettingsFor(a)).data[0];
      ConvertAnnotation(Annotations.SpanAnnotationOf(
        Api.SpanAnnotation(id, item.spanID, item.name, item.annotatorKind, item.result, createdAt, updatedAt)))
      == a.(id := id, traceID := "", source := Normalised(a.source), createdAt := createdAt, updatedAt := updatedAt)
  {
    Annotations.SpanAnnotationRoundTrip(a.spanID, a.name, a.score, AnnotationSettingsFor(a), id, createdAt, updatedAt);
    KindRoundTrip(a.source);
  }

  /** The trace counterpart of SpanAnnotationRoundTrip, for an annotation without a span ID. */
  lemma TraceAnnotationRoundTrip(a: Observe.Annotation, id: string, createdAt: Api.Time, updatedAt: Api.Time)
    requires a.spanID == "" && a.traceID != ""
    ensures var item := Annotations.TraceRequest(a.traceID, a.name, a.score, AnnotationSettingsFor(a)).data[0];
      ConvertAnnotation(Annotations.TraceAnnotationOf(
        Api.TraceAnnotation(id, item.traceID, item.name, item.annotatorKind, item.result, createdAt, updatedAt)))
      == a.(id := id, source := Normalised(a.source), createdAt := createdAt, updatedAt := updatedAt)
  {
    Annotations.TraceAnnotationRoundTrip(a.traceID, a.name, a.score, AnnotationSettingsFor(a), id, createdAt, updatedAt);
    KindRoundTrip(a.source);
  }
}
