/**
 * otel/options.go: every Option assigns one field of the Config it is applied to.
 */
module OtelOptions {
  import opened OtelConfig

  datatype Option =
    | WithEndpoint(endpoint: string)
    | WithSpaceID(spaceID: string)
    | WithProjectName(projectName: string)
    | WithAPIKey(apiKey: string)
    | WithHeaders(headers: map<string, string>)
    | WithProtocol(protocol: Protocol)
    | WithBatch(batch: bool)
    | WithBatchTimeout(timeout: Duration)
    | WithBatchSize(size: int)
    | WithGlobalProvider(global: bool)
    | WithServiceName(serviceName: string)
    | WithServiceVersion(serviceVersion: string)
    | WithInsecure(insecure: bool)

  /** The Config fields, to state which one an option touches. */
  datatype Field =
    | EndpointField | SpaceIDField | ProjectNameField | APIKeyField | HeadersField
    | ProtocolField | BatchField | BatchTimeoutField | BatchSizeField | GlobalProviderField
    | ServiceNameField | ServiceVersionField | InsecureField

  datatype FieldValue = Str(s: string) | Flag(b: bool) | Num(n: int) | HeaderMap(m: map<string, string>)

  /** The field an option is about. */
  function FieldOf(o: Option): Field {
    match o
    case WithEndpoint(_) => EndpointField
    case WithSpaceID(_) => SpaceIDField
    case WithProjectName(_) => ProjectNameField
    case WithAPIKey(_) => APIKeyField
    case WithHeaders(_) => HeadersField
    case WithProtocol(_) => ProtocolField
    case WithBatch(_) => BatchField
    case WithBatchTimeout(_) => BatchTimeoutField
    case WithBatchSize(_) => BatchSizeField
    case WithGlobalProvider(_) => GlobalProviderField
    case WithServiceName(_) => ServiceNameField
    case WithServiceVersion(_) => ServiceVersionField
    case WithInsecure(_) => InsecureField
  }

  /** The value an option carries. */
  function Payload(o: Option): FieldValue {
    match o
    case WithEndpoint(v) => Str(v)
    case WithSpaceID(v) => Str(v)
    case WithProjectName(v) => Str(v)
    case WithAPIKey(v) => Str(v)
    case WithHeaders(v) => HeaderMap(v)
    case WithProtocol(v) => Str(v)
    case WithBatch(v) => Flag(v)
    case WithBatchTimeout(v) => Num(v)
    case WithBatchSize(v) => Num(v)
    case WithGlobalProvider(v) => Flag(v)
    case WithServiceName(v) => Str(v)
    case WithServiceVersion(v) => Str(v)
    case WithInsecure(v) => Flag(v)
  }

  /** Reading one field of a configuration. */
  function Get(s: Settings, f: Field): FieldValue {
    match f
    case EndpointField => Str(s.endpoint)
    case SpaceIDField => Str(s.spaceID)
    case ProjectNameField => Str(s.projectName)
    case APIKeyField => Str(s.apiKey)
    case HeadersField => HeaderMap(s.headers)
    case ProtocolField => Str(s.protocol)
    case BatchField => Flag(s.batch)
    case BatchTimeoutField => Num(s.batchTimeout)
    case BatchSizeField => Num(s.batchSize)
    case GlobalProviderField => Flag(s.setGlobalProvider)
    case ServiceNameField => Str(s.serviceName)
    case ServiceVersionField => Str(s.serviceVersion)
    case InsecureField => Flag(s.insecure)
  }

  /** The configuration after one option. */
  function Applied(s: Settings, o: Option): Settings {
    match o
    case WithEndpoint(v) => s.(endpoint := v)
    case WithSpaceID(v) => s.(spaceID := v)
    case WithProjectName(v) => s.(projectName := v)
    case WithAPIKey(v) => s.(apiKey := v)
    case WithHeaders(v) => s.(headers := v)
    case WithProtocol(v) => s.(protocol := v)
    case WithBatch(v) => s.(batch := v)
    case WithBatchTimeout(v) => s.(batchTimeout := v)
    case WithBatchSize(v) => s.(batchSize := v)
    case WithGlobalProvider(v) => s.(setGlobalProvider := v)
    case WithServiceName(v) => s.(serviceName := v)
    case WithServiceVersion(v) => s.(serviceVersion := v)
    case WithInsecure(v) => s.(insecure := v)
  }

  /** The configuration after the options, applied left to right. */
  function AppliedAll(s: Settings, opts: seq<Option>): Settings {
    if |opts| == 0 then s else Applied(AppliedAll(s, opts[..|opts| - 1]), opts[|opts| - 1])
  }

  /** Running the closure an option stands for. */
  method Apply(cfg: Config, o: Option)
    modifies cfg
    ensures cfg.Value() == Applied(old(cfg.Value()), o)
  {
    match o
    case WithEndpoint(v) => cfg.SetEndpoint(v);
    case WithSpaceID(v) => cfg.SetSpaceID(v);
    case WithProjectName(v) => cfg.SetProjectName(v);
    case WithAPIKey(v) => cfg.SetAPIKey(v);
    case WithHeaders(v) => cfg.SetHeaders(v);
    case WithProtocol(v) => cfg.SetProtocol(v);
    case WithBatch(v) => cfg.SetBatch(v);
    case WithBatchTimeout(v) => cfg.SetBatchTimeout(v);
    case WithBatchSize(v) => cfg.SetBatchSize(v);
    case WithGlobalProvider(v) => cfg.SetGlobalProvider(v);
    case WithServiceName(v) => cfg.SetServiceName(v);
    case WithServiceVersion(v) => cfg.SetServiceVersion(v);
    case WithInsecure(v) => cfg.SetInsecure(v);
  }

  /** for _, opt := range opts { opt(cfg) } */
  method ApplyAll(cfg: Config, opts: seq<Option>)
    modifies cfg
    ensures cfg.Value() == AppliedAll(old(cfg.Value()), opts)
  {
    for i := 0 to |opts|
      invariant cfg.Value() == AppliedAll(old(cfg.Value()), opts[..i])
    {
      assert opts[..i + 1][..i] == opts[..i];
      Apply(cfg, opts[i]);
    }
    assert opts[..|opts|] == opts;
  }

  /** Each option sets its own field to its value and leaves every other field unchanged. */
  lemma OptionSetsOneField(s: Settings, o: Option)
    ensures Get(Applied(s, o), FieldOf(o)) == Payload(o)
    ensures forall f :: f != FieldOf(o) ==> Get(Applied(s, o), f) == Get(s, f)
  {
  }

  /** A field no option touches keeps its value through the fold. */
  lemma {:induction false} UntouchedFieldKept(s: Settings, opts: seq<Option>, f: Field)
    requires forall o :: o in opts ==> FieldOf(o) != f
    ensures Get(AppliedAll(s, opts), f) == Get(s, f)
    decreases |opts|
  {
    if |opts| > 0 {
      assert opts[|opts| - 1] in opts;
      assert forall o :: o in opts[..|opts| - 1] ==> o in opts;
      UntouchedFieldKept(s, opts[..|opts| - 1], f);
      OptionSetsOneField(AppliedAll(s, opts[..|opts| - 1]), opts[|opts| - 1]);
    }
  }

  lemma {:induction false} AppliedAllAppend(s: Settings, xs: seq<Option>, ys: seq<Option>)
    ensures AppliedAll(s, xs + ys) == AppliedAll(AppliedAll(s, xs), ys)
    decreases |ys|
  {
    if |ys| == 0 {
      assert xs + ys == xs;
    } else {
      assert (xs + ys)[..|xs + ys| - 1] == xs + ys[..|ys| - 1];
      AppliedAllAppend(s, xs, ys[..|ys| - 1]);
    }
  }

  /** The last option touching a field decides it, whatever came before. */
  lemma LastOptionWins(s: Settings, pre: seq<Option>, o: Option, post: seq<Option>)
    requires forall p :: p in post ==> FieldOf(p) != FieldOf(o)
    ensures Get(AppliedAll(s, pre + [o] + post), FieldOf(o)) == Payload(o)
  {
    AppliedAllAppend(s, pre + [o], post);
    assert (pre + [o])[..|pre + [o]| - 1] == pre;
    OptionSetsOneField(AppliedAll(s, pre), o);
    UntouchedFieldKept(AppliedAll(s, pre + [o]), post, FieldOf(o));
  }

  /** WithEndpoint then WithSpaceID: the exporter endpoint is the slash-stripped endpoint + "/s/" + SpaceID. */
  lemma EndpointThenSpace(s: Settings, endpoint: string, spaceID: string)
    requires spaceID != ""
    ensures Effective(AppliedAll(s, [WithEndpoint(endpoint), WithSpaceID(spaceID)])) ==
      StripTrailingSlashes(endpoint) + "/s/" + spaceID
  {
    assert [WithEndpoint(endpoint), WithSpaceID(spaceID)][..1] == [WithEndpoint(endpoint)];
    assert [WithEndpoint(endpoint)][..0] == [];
  }
}
