/**
 * client.go: NewClient (option fold, Validate, default HTTP client), the
 * header decoration of authHTTPClient.Do, and the project-name accessors.
 */
module Client {
  import opened Wrappers
  import opened Errors
  import opened ClientConfig
  import opened ClientOptions

  /** The SDK version sent with every request. */
  const Version := "0.1.0"

  const AuthorizationHeader := "Authorization"
  const SDKVersionHeader := "X-Phoenix-SDK-Version"
  const SDKLangHeader := "X-Phoenix-SDK-Lang"
  const SDKLang := "go"

  /** An outgoing *http.Request, reduced to its header map. */
  class Request {
    var header: map<string, string>

    constructor (header: map<string, string>)
      ensures this.header == header
    {
      this.header := header;
    }
  }

  /** The request headers after Do: the bearer token when there is a key, then the two SDK headers. */
  function Decorated(h: map<string, string>, apiKey: string): map<string, string> {
    var auth := if apiKey != "" then h[AuthorizationHeader := "Bearer " + apiKey] else h;
    auth[SDKVersionHeader := Version][SDKLangHeader := SDKLang]
  }

  /** authHTTPClient: the HTTP client that carries requests and the API key it adds. */
  datatype AuthClient = AuthClient(client: HttpClient, apiKey: string) {
    /** Do, up to the hand-off to the wrapped client: the header writes. */
    method Do(req: Request)
      modifies req
      ensures req.header == Decorated(old(req.header), apiKey)
    {
      if apiKey != "" {
        req.header := req.header[AuthorizationHeader := "Bearer " + apiKey];
      }
      req.header := req.header[SDKVersionHeader := Version];
      req.header := req.header[SDKLangHeader := SDKLang];
    }
  }

  /**
   * Authorization is set to "Bearer <key>" exactly when the key is non-empty
   * (otherwise a caller's own Authorization header is left as it was), the two
   * SDK headers are always set, and every other header is untouched.
   */
  lemma DecoratedHeaders(h: map<string, string>, apiKey: string)
    ensures var r := Decorated(h, apiKey);
      r[SDKVersionHeader] == "0.1.0" && r[SDKLangHeader] == "go" &&
      (apiKey != "" ==> r[AuthorizationHeader] == "Bearer " + apiKey) &&
      (apiKey == "" ==> (AuthorizationHeader in r <==> AuthorizationHeader in h) &&
                        (AuthorizationHeader in h ==> r[AuthorizationHeader] == h[AuthorizationHeader])) &&
      r.Keys == h.Keys + {SDKVersionHeader, SDKLangHeader} + (if apiKey != "" then {AuthorizationHeader} else {}) &&
      forall k :: k in h && k != AuthorizationHeader && k != SDKVersionHeader && k != SDKLangHeader ==> r[k] == h[k]
  {
    assert AuthorizationHeader[0] != SDKVersionHeader[0] && AuthorizationHeader[0] != SDKLangHeader[0];
    assert SDKVersionHeader[14] != SDKLangHeader[14];
  }

  /** Client: the validated configuration (shared with the options) and the API client's transport. */
  class Client {
    var config: Config
    var transport: AuthClient
    var serverURL: string

    constructor (config: Config, transport: AuthClient, serverURL: string)
      ensures this.config == config && this.transport == transport && this.serverURL == serverURL
    {
      this.config, this.transport, this.serverURL := config, transport, serverURL;
    }

    /** ProjectName: the default project of the shared configuration. */
    function ProjectName(): (r: string)
      reads this, config
      ensures r == config.Value().projectName
    {
      config.projectName
    }

    /** SetProjectName: writes the shared configuration's ProjectName. */
    method SetProjectName(name: string)
      modifies config
      ensures config.Value() == old(config.Value()).(projectName := name)
      ensures ProjectName() == name
    {
      config.projectName := name;
    }
  }

  /** What the client is built from once the options are folded: the validated settings and the transport. */
  datatype Built = Built(settings: Settings, transport: AuthClient)

  /**
   * The reference definition of NewClient after the fold: Validate's error,
   * then the ogen constructor's error for the validated URL, else the
   * validated settings and a transport holding the custom client or a default
   * one with the options' timeout.
   */
  function Construction(s: Settings, httpClient: Option<HttpClient>, timeout: Duration,
                        apiNew: string -> Option<Error>): Result<Built, Error> {
    match Validated(s)
    case Failure(e) => Failure(e)
    case Success(v) =>
      if apiNew(v.url).Some? then Failure(apiNew(v.url).value)
      else Success(Built(v, AuthClient(if httpClient.Some? then httpClient.value else HttpClient(timeout), v.apiKey)))
  }

  /**
   * NewClient returns ErrMissingURL exactly for an empty URL, before the API
   * client is built; otherwise it fails only with api.NewClient's error.  A
   * built client carries the validated settings, the API key, and the custom
   * HTTP client or else a default one with the options' timeout.
   */
  lemma ConstructionRules(s: Settings, httpClient: Option<HttpClient>, timeout: Duration, apiNew: string -> Option<Error>)
    ensures var b := Construction(s, httpClient, timeout, apiNew);
      (s.url == "" ==> b == Failure(Sentinel(MissingURL))) &&
      (s.url != "" ==> (b.Success? <==> apiNew(Validated(s).value.url).None?)) &&
      (b.Success? ==> b.value.settings == Validated(s).value &&
                      b.value.transport.apiKey == s.apiKey &&
                      (httpClient.None? ==> b.value.transport.client == HttpClient(timeout)) &&
                      (httpClient.Some? ==> b.value.transport.client == httpClient.value))
  {
    ValidatedFailsIffMissingURL(s);
  }

  /** The settings of the configurations the options carry, before NewClient's fold. */
  function Carried(opts: seq<ClientOption>): (m: map<Config, Settings>)
    reads ConfigsOf(opts)
    ensures m.Keys == ConfigsOf(opts)
    ensures forall c :: c in m ==> m[c] == c.Value()
  {
    map c | c in ConfigsOf(opts) :: c.Value()
  }

  /**
   * NewClient: defaultClientOptions, every option in order, Validate, then
   * the client.  `loaded` is the Config LoadConfig created; `options` is the
   * folded clientOptions; `apiNew` stands for api.NewClient's error result.
   */
  method NewClient(env: map<string, string>, opts: seq<ClientOption>, apiNew: string -> Option<Error>)
    returns (res: Result<Client, Error>, options: Options, ghost loaded: Config)
    modifies ConfigsOf(opts)
    ensures fresh(options) && fresh(loaded)
    ensures var st := Folded(FoldState(loaded, old(Carried(opts))[loaded := FromEnv(Defaults, env)], None, DefaultTimeout), opts);
      var cur := st.values[st.current];
      var built := Construction(cur, st.httpClient, st.timeout, apiNew);
      options.config == st.current &&
      (forall c :: c in st.values && c != st.current ==> c.Value() == st.values[c]) &&
      st.current.Value() == (if Validated(cur).Success? then Validated(cur).value else cur) &&
      (res.Success? <==> built.Success?) &&
      (res.Failure? ==> res.error == built.error) &&
      (res.Success? ==> (fresh(res.value) && res.value.config == st.current &&
        res.value.transport == built.value.transport && res.value.serverURL == built.value.settings.url))
  {
    options := new Options(env);
    loaded := options.config;
    ghost var carried := old(Carried(opts));
    ghost var init := FoldState(loaded, carried[loaded := FromEnv(Defaults, env)], None, DefaultTimeout);
    assert Snapshot(loaded, opts) == init.values;
    options.ApplyAll(opts);
    ghost var st := Folded(init, opts);
    assert options.Mirrors(st);
    res := Construct(options.config, options.httpClient, options.timeout, apiNew);
  }

  /** What NewClient does after the option loop: Validate, then api.NewClient, then the client. */
  method Construct(config: Config, httpClient: Option<HttpClient>, timeout: Duration, apiNew: string -> Option<Error>)
    returns (res: Result<Client, Error>)
    modifies config
    ensures var cur := old(config.Value());
      var built := Construction(cur, httpClient, timeout, apiNew);
      config.Value() == (if Validated(cur).Success? then Validated(cur).value else cur) &&
      (res.Success? <==> built.Success?) &&
      (res.Failure? ==> res.error == built.error) &&
      (res.Success? ==> (fresh(res.value) && res.value.config == config &&
        res.value.transport == built.value.transport && res.value.serverURL == built.value.settings.url))
  {
    var err := config.Validate();
    if err.Some? {
      return Failure(err.value);
    }
    var http := if httpClient.Some? then httpClient.value else HttpClient(timeout);
    var authClient := AuthClient(http, config.apiKey);
    var apiErr := apiNew(config.url);
    if apiErr.Some? {
      return Failure(apiErr.value);
    }
    var client := new Client(config, authClient, config.url);
    res := Success(client);
  }
}
