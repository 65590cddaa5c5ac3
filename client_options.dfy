/**
 * options.go: the functional options of NewClient and of the list calls.
 *
 * A client option closes over a *Config or writes through `o.config`, so the
 * fold is specified over the configurations it can reach: the current one and
 * every one passed with WithConfig, each with its settings.  WithConfig only
 * redirects `o.config`; the field options then write into whichever Config it
 * points to, which may be an object the caller still holds.
 */
module ClientOptions {
  import opened Wrappers
  import opened ClientConfig

  type Duration = int
  const Second: Duration := 1_000_000_000

  /** The request timeout of defaultClientOptions. */
  const DefaultTimeout: Duration := 60 * Second

  /** An *http.Client, reduced to the timeout NewClient gives it. */
  datatype HttpClient = HttpClient(timeout: Duration)

  /** The Option closures of options.go. */
  datatype ClientOption =
    | WithURL(url: string)
    | WithAPIKey(apiKey: string)
    | WithProjectName(projectName: string)
    | WithSpaceID(spaceID: string)
    | WithConfig(config: Config)
    | WithHTTPClient(client: HttpClient)
    | WithTimeout(timeout: Duration)

  /** The configuration field a config-field option writes, applied to settings. */
  function Edit(s: Settings, opt: ClientOption): Settings {
    match opt
    case WithURL(u) => s.(url := u)
    case WithAPIKey(k) => s.(apiKey := k)
    case WithProjectName(p) => s.(projectName := p)
    case WithSpaceID(sp) => s.(spaceID := sp)
    case _ => s
  }

  predicate EditsConfig(opt: ClientOption) {
    opt.WithURL? || opt.WithAPIKey? || opt.WithProjectName? || opt.WithSpaceID?
  }

  /** The Configs that WithConfig options of `opts` carry. */
  function ConfigsOf(opts: seq<ClientOption>): (cs: set<Config>)
    ensures forall i :: 0 <= i < |opts| && opts[i].WithConfig? ==> opts[i].config in cs
    ensures forall c :: c in cs ==> exists i :: 0 <= i < |opts| && opts[i] == WithConfig(c)
  {
    if |opts| == 0 then {}
    else
      var rest := ConfigsOf(opts[..|opts| - 1]);
      var last := opts[|opts| - 1];
      assert forall i :: 0 <= i < |opts| - 1 ==> opts[..|opts| - 1][i] == opts[i];
      if last.WithConfig? then rest + {last.config} else rest
  }

  /** What the fold sees: the Config `o.config` points to and the settings of every reachable Config. */
  datatype FoldState = FoldState(
    current: Config,
    values: map<Config, Settings>,
    httpClient: Option<HttpClient>,
    timeout: Duration)

  predicate Reaches(st: FoldState, opts: seq<ClientOption>) {
    st.current in st.values &&
    forall i :: 0 <= i < |opts| && opts[i].WithConfig? ==> opts[i].config in st.values
  }

  /** One option closure, applied to the fold state. */
  function Step(st: FoldState, opt: ClientOption): (r: FoldState)
    requires st.current in st.values
    requires opt.WithConfig? ==> opt.config in st.values
    ensures r.current in r.values && r.values.Keys == st.values.Keys
  {
    match opt
    case WithConfig(c) => st.(current := c)
    case WithHTTPClient(h) => st.(httpClient := Some(h))
    case WithTimeout(t) => st.(timeout := t)
    case _ => st.(values := st.values[st.current := Edit(st.values[st.current], opt)])
  }

  /** The options applied left to right (stated from the right end). */
  function Folded(st: FoldState, opts: seq<ClientOption>): (r: FoldState)
    requires Reaches(st, opts)
    ensures r.current in r.values && r.values.Keys == st.values.Keys
    decreases |opts|
  {
    if |opts| == 0 then st
    else
      var front := opts[..|opts| - 1];
      assert forall i :: 0 <= i < |front| ==> front[i] == opts[i];
      Step(Folded(st, front), opts[|opts| - 1])
  }

  /** clientOptions */
  class Options {
    var config: Config
    var httpClient: Option<HttpClient>
    var timeout: Duration

    /** defaultClientOptions: LoadConfig(), no HTTP client, a 60 second timeout. */
    constructor (env: map<string, string>)
      ensures fresh(config) && config.Value() == FromEnv(Defaults, env)
      ensures httpClient == None && timeout == DefaultTimeout
    {
      var cfg := LoadConfig(env);
      config, httpClient, timeout := cfg, None, DefaultTimeout;
    }

    /** One option closure. */
    method Apply(opt: ClientOption)
      modifies this, config
      ensures opt.WithConfig? ==> config == opt.config && unchanged(old(config))
      ensures EditsConfig(opt) ==> config == old(config) && config.Value() == Edit(old(config.Value()), opt)
      ensures opt.WithHTTPClient? ==> config == old(config) && unchanged(config)
      ensures opt.WithTimeout? ==> config == old(config) && unchanged(config)
      ensures httpClient == (if opt.WithHTTPClient? then Some(opt.client) else old(httpClient))
      ensures timeout == (if opt.WithTimeout? then opt.timeout else old(timeout))
    {
      match opt {
        case WithURL(u) => config.url := u;
        case WithAPIKey(k) => config.apiKey := k;
        case WithProjectName(p) => config.projectName := p;
        case WithSpaceID(sp) => config.spaceID := sp;
        case WithConfig(c) => config := c;
        case WithHTTPClient(h) => httpClient := Some(h);
        case WithTimeout(t) => timeout := t;
      }
    }

    /** Apply, seen through the fold state: the object graph after it is Step of the one before. */
    method ApplyStep(opt: ClientOption, ghost st: FoldState)
      requires st.current in st.values && (opt.WithConfig? ==> opt.config in st.values)
      requires Mirrors(st)
      modifies this, config
      ensures Mirrors(Step(st, opt))
    {
      Apply(opt);
      if EditsConfig(opt) {
        assert forall c :: c in st.values && c != st.current ==> c.Value() == st.values[c];
      }
    }

    /** This object and the reachable Configs hold exactly what `st` says. */
    predicate Mirrors(st: FoldState)
      reads this, st.values.Keys
    {
      config == st.current && httpClient == st.httpClient && timeout == st.timeout &&
      forall c :: c in st.values ==> c.Value() == st.values[c]
    }

    /** The loop of NewClient: every option, left to right. */
    method ApplyAll(opts: seq<ClientOption>)
      modifies this, {config} + ConfigsOf(opts)
      ensures Mirrors(Folded(FoldState(old(config), old(Snapshot(config, opts)), old(httpClient), old(timeout)), opts))
    {
      ghost var reach := {config} + ConfigsOf(opts);
      ghost var init := FoldState(config, Snapshot(config, opts), httpClient, timeout);
      assert Reaches(init, opts);
      var i := 0;
      while i < |opts|
        invariant 0 <= i <= |opts|
        invariant Reaches(init, opts[..i])
        invariant Mirrors(Folded(init, opts[..i]))
        invariant config in reach
        modifies this, reach
      {
        assert opts[..i + 1][..i] == opts[..i];
        assert Reaches(init, opts[..i + 1]);
        ghost var before := Folded(init, opts[..i]);
        ApplyStep(opts[i], before);
        assert Folded(init, opts[..i + 1]) == Step(before, opts[i]);
        i := i + 1;
      }
      assert opts[..i] == opts;
    }
  }

  /** The settings of every Config the options can reach, read before the fold. */
  function Snapshot(current: Config, opts: seq<ClientOption>): (m: map<Config, Settings>)
    reads {current} + ConfigsOf(opts)
    ensures m.Keys == {current} + ConfigsOf(opts)
    ensures forall c :: c in m ==> m[c] == c.Value()
  {
    map c | c in {current} + ConfigsOf(opts) :: c.Value()
  }

  /** A config-field option writes one field of the current Config, nothing else. */
  lemma FieldOptionEditsOneField(st: FoldState, opt: ClientOption)
    requires st.current in st.values && EditsConfig(opt)
    ensures var r := Step(st, opt); var s := st.values[st.current]; var t := r.values[st.current];
      r.current == st.current && r.httpClient == st.httpClient && r.timeout == st.timeout &&
      (forall c :: c in st.values && c != st.current ==> r.values[c] == st.values[c]) &&
      (opt.WithURL? ==> t == s.(url := opt.url)) &&
      (opt.WithAPIKey? ==> t == s.(apiKey := opt.apiKey)) &&
      (opt.WithProjectName? ==> t == s.(projectName := opt.projectName)) &&
      (opt.WithSpaceID? ==> t == s.(spaceID := opt.spaceID))
  {
  }

  /** WithHTTPClient and WithTimeout set only their own field. */
  lemma TransportOptionsSetOwnField(st: FoldState, opt: ClientOption)
    requires st.current in st.values && (opt.WithHTTPClient? || opt.WithTimeout?)
    ensures var r := Step(st, opt);
      r.current == st.current && r.values == st.values &&
      (opt.WithHTTPClient? ==> r.httpClient == Some(opt.client) && r.timeout == st.timeout) &&
      (opt.WithTimeout? ==> r.timeout == opt.timeout && r.httpClient == st.httpClient)
  {
  }

  /** Only config-field options, applied to the current Config, in order. */
  function EditedBy(s: Settings, opts: seq<ClientOption>): Settings
    decreases |opts|
  {
    if |opts| == 0 then s else Edit(EditedBy(s, opts[..|opts| - 1]), opts[|opts| - 1])
  }

  /** A run of options without WithConfig edits only the current Config. */
  lemma {:induction false} NoWithConfigEditsCurrent(st: FoldState, opts: seq<ClientOption>)
    requires st.current in st.values
    requires forall i :: 0 <= i < |opts| ==> !opts[i].WithConfig?
    ensures Reaches(st, opts)
    ensures var r := Folded(st, opts);
      r.current == st.current &&
      r.values == st.values[st.current := EditedBy(st.values[st.current], opts)]
    decreases |opts|
  {
    if |opts| > 0 {
      var front := opts[..|opts| - 1];
      NoWithConfigEditsCurrent(st, front);
    }
  }

  /** Folding a concatenation is folding the second part from the first's result. */
  lemma {:induction false} FoldedAppend(st: FoldState, a: seq<ClientOption>, b: seq<ClientOption>)
    requires Reaches(st, a + b)
    ensures Reaches(st, a) && Reaches(Folded(st, a), b)
    ensures Folded(st, a + b) == Folded(Folded(st, a), b)
    decreases |b|
  {
    assert forall i :: 0 <= i < |a| ==> (a + b)[i] == a[i];
    assert forall i :: 0 <= i < |b| ==> (a + b)[|a| + i] == b[i];
    if |b| == 0 {
      assert a + b == a;
    } else {
      var bf := b[..|b| - 1];
      assert (a + b)[..|a + b| - 1] == a + bf;
      FoldedAppend(st, a, bf);
    }
  }

  /** The options around a single WithConfig(c) reach only the current Config and `c`. */
  lemma SingleWithConfigReaches(st: FoldState, before: seq<ClientOption>, c: Config, after: seq<ClientOption>)
    requires st.current in st.values && c in st.values
    requires forall i :: 0 <= i < |before| ==> !before[i].WithConfig?
    requires forall i :: 0 <= i < |after| ==> !after[i].WithConfig?
    ensures Reaches(st, before + [WithConfig(c)] + after)
  {
    var opts := before + [WithConfig(c)] + after;
    forall i | 0 <= i < |opts|
      ensures opts[i].WithConfig? ==> opts[i] == WithConfig(c)
    {
      if i < |before| {
        assert opts[i] == before[i];
      } else if i > |before| {
        assert opts[i] == after[i - |before| - 1];
      }
    }
  }

  /**
   * WithConfig(c) replaces the configuration: options before it wrote the
   * previous Config and are lost to the client, options after it write `c`
   * itself, the caller's object.
   */
  lemma WithConfigReplaces(st: FoldState, before: seq<ClientOption>, c: Config, after: seq<ClientOption>)
    requires st.current in st.values && c in st.values && st.current != c
    requires forall i :: 0 <= i < |before| ==> !before[i].WithConfig?
    requires forall i :: 0 <= i < |after| ==> !after[i].WithConfig?
    ensures Reaches(st, before + [WithConfig(c)] + after)
    ensures var r := Folded(st, before + [WithConfig(c)] + after);
      r.current == c &&
      r.values[c] == EditedBy(st.values[c], after) &&
      r.values[st.current] == EditedBy(st.values[st.current], before)
  {
    SingleWithConfigReaches(st, before, c, after);
    var head := before + [WithConfig(c)];
    FoldedAppend(st, head, after);
    assert head[..|head| - 1] == before;
    NoWithConfigEditsCurrent(st, before);
    var pre := Folded(st, before);
    var mid := Folded(st, head);
    assert mid == Step(pre, WithConfig(c));
    assert mid.current == c && mid.values == pre.values;
    NoWithConfigEditsCurrent(mid, after);
  }

  /** listOptions */
  datatype ListSettings = ListSettings(cursor: string, limit: int)

  /** defaultListOptions: no cursor, limit 100. */
  const DefaultListSettings := ListSettings("", 100)

  datatype ListOption = WithCursor(cursor: string) | WithLimit(limit: int)

  function ListApplied(s: ListSettings, opt: ListOption): (r: ListSettings)
    ensures opt.WithCursor? ==> r == s.(cursor := opt.cursor)
    ensures opt.WithLimit? ==> r == s.(limit := opt.limit)
  {
    match opt
    case WithCursor(c) => s.(cursor := c)
    case WithLimit(n) => s.(limit := n)
  }

  function ListAppliedAll(s: ListSettings, opts: seq<ListOption>): ListSettings
    decreases |opts|
  {
    if |opts| == 0 then s else ListApplied(ListAppliedAll(s, opts[..|opts| - 1]), opts[|opts| - 1])
  }

  class ListOptions {
    var cursor: string
    var limit: int

    function Value(): ListSettings
      reads this
    {
      ListSettings(cursor, limit)
    }

    constructor ()
      ensures Value() == DefaultListSettings
    {
      cursor, limit := "", 100;
    }

    method Apply(opt: ListOption)
      modifies this
      ensures Value() == ListApplied(old(Value()), opt)
    {
      match opt {
        case WithCursor(c) => cursor := c;
        case WithLimit(n) => limit := n;
      }
    }

    method ApplyAll(opts: seq<ListOption>)
      modifies this
      ensures Value() == ListAppliedAll(old(Value()), opts)
    {
      var i := 0;
      while i < |opts|
        invariant 0 <= i <= |opts|
        invariant Value() == ListAppliedAll(old(Value()), opts[..i])
      {
        assert opts[..i + 1][..i] == opts[..i];
        Apply(opts[i]);
        i := i + 1;
      }
      assert opts[..i] == opts;
    }
  }

  /** Folding a + b is folding a, then b. */
  lemma {:induction false} ListAppliedAllAppend(s: ListSettings, a: seq<ListOption>, b: seq<ListOption>)
    ensures ListAppliedAll(s, a + b) == ListAppliedAll(ListAppliedAll(s, a), b)
    decreases |b|
  {
    if |b| == 0 {
      assert a + b == a;
    } else {
      var front := b[..|b| - 1];
      assert (a + b)[..|a + b| - 1] == a + front;
      assert (a + b)[|a + b| - 1] == b[|b| - 1];
      ListAppliedAllAppend(s, a, front);
    }
  }

  /** Without WithCursor (WithLimit) the cursor (limit) keeps its starting value. */
  lemma {:induction false} ListUntouchedKept(s: ListSettings, opts: seq<ListOption>)
    ensures (forall i :: 0 <= i < |opts| ==> !opts[i].WithCursor?) ==> ListAppliedAll(s, opts).cursor == s.cursor
    ensures (forall i :: 0 <= i < |opts| ==> !opts[i].WithLimit?) ==> ListAppliedAll(s, opts).limit == s.limit
    decreases |opts|
  {
    if |opts| > 0 {
      var front := opts[..|opts| - 1];
      assert forall i :: 0 <= i < |front| ==> front[i] == opts[i];
      ListUntouchedKept(s, front);
    }
  }

  /** The last WithCursor and the last WithLimit win, whatever follows for the other field. */
  lemma ListLastWins(s: ListSettings, pre: seq<ListOption>, o: ListOption, post: seq<ListOption>)
    requires o.WithCursor? ==> forall i :: 0 <= i < |post| ==> !post[i].WithCursor?
    requires o.WithLimit? ==> forall i :: 0 <= i < |post| ==> !post[i].WithLimit?
    ensures var r := ListAppliedAll(s, pre + [o] + post);
      (o.WithCursor? ==> r.cursor == o.cursor) && (o.WithLimit? ==> r.limit == o.limit)
  {
    ListAppliedAllAppend(s, pre + [o], post);
    assert (pre + [o])[..|pre + [o]| - 1] == pre;
    ListUntouchedKept(ListAppliedAll(s, pre + [o]), post);
  }
}
