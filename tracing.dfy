/**
 * llmops/trace.go and llmops/span.go: the trace and span wrappers of the
 * omniobserve adapter, which write OpenInference attributes onto OTel spans,
 * keep their own end time, and travel in a context.
 */
module Tracing {
  import opened Wrappers
  import opened Observe
  import A = OtelAttributes

  /** json.Marshal: the encoding of a value, or None when it cannot be encoded. */
  type Marshal = Value -> Option<string>

  // ---- the OTel span ---------------------------------------------------

  /** An event added to a span (trace.Span.AddEvent). */
  datatype Event = Event(name: string, attrs: seq<A.Attr>)

  /**
   * The recording OTel span behind a wrapper: the IDs the SDK gave it, and
   * what has been written to it, in order.
   */
  class OtelSpan {
    const traceID: string
    const spanID: string
    var attrs: seq<A.Attr>
    var events: seq<Event>
    var errors: seq<string>
    var ended: bool

    constructor (traceID: string, spanID: string)
      ensures this.traceID == traceID && this.spanID == spanID
      ensures attrs == [] && events == [] && errors == [] && !ended
    {
      this.traceID, this.spanID := traceID, spanID;
      attrs, events, errors, ended := [], [], [], false;
    }

    method SetAttributes(kvs: seq<A.Attr>)
      modifies this
      ensures attrs == old(attrs) + kvs
      ensures events == old(events) && errors == old(errors) && ended == old(ended)
    {
      attrs := attrs + kvs;
    }

    method AddEvent(name: string, kvs: seq<A.Attr>)
      modifies this
      ensures events == old(events) + [Event(name, kvs)]
      ensures attrs == old(attrs) && errors == old(errors) && ended == old(ended)
    {
      events := events + [Event(name, kvs)];
    }

    method RecordError(err: string)
      modifies this
      ensures errors == old(errors) + [err]
      ensures attrs == old(attrs) && events == old(events) && ended == old(ended)
    {
      errors := errors + [err];
    }

    method End()
      modifies this
      ensures ended
      ensures attrs == old(attrs) && events == old(events) && errors == old(errors)
    {
      ended := true;
    }
  }

  // ---- reading attributes back -----------------------------------------

  /** Every value written under `key`, in writing order. */
  function ValuesUnder(attrs: seq<A.Attr>, key: string): seq<A.AttrValue>
    decreases |attrs|
  {
    if |attrs| == 0 then []
    else
      var last := attrs[|attrs| - 1];
      ValuesUnder(attrs[..|attrs| - 1], key) + (if last.key == key then [last.value] else [])
  }

  lemma {:induction false} ValuesUnderAppend(a: seq<A.Attr>, b: seq<A.Attr>, key: string)
    ensures ValuesUnder(a + b, key) == ValuesUnder(a, key) + ValuesUnder(b, key)
    decreases |b|
  {
    if |b| == 0 {
      assert a + b == a;
    } else {
      assert (a + b)[..|a + b| - 1] == a + b[..|b| - 1];
      ValuesUnderAppend(a, b[..|b| - 1], key);
    }
  }

  lemma AppendAssoc<T>(a: seq<T>, b: seq<T>, c: seq<T>)
    ensures a + b + c == a + (b + c)
  {
  }

  lemma ValuesUnderOne(x: A.Attr, key: string)
    ensures ValuesUnder([x], key) == (if x.key == key then [x.value] else [])
  {
    assert [x][..0] == [];
  }

  /** String values, one per tag. */
  function StringValues(xs: seq<string>): (vs: seq<A.AttrValue>)
    ensures |vs| == |xs| && forall i :: 0 <= i < |xs| ==> vs[i] == A.StringValue(xs[i])
  {
    seq(|xs|, i requires 0 <= i < |xs| => A.StringValue(xs[i]))
  }

  /** One tag.tags attribute per tag (AddTag in a loop). */
  function TagAttrs(tags: seq<string>): (attrs: seq<A.Attr>)
    ensures |attrs| == |tags|
    ensures forall i :: 0 <= i < |tags| ==> attrs[i] == A.Attr(A.TagsKey, A.StringValue(tags[i]))
  {
    seq(|tags|, i requires 0 <= i < |tags| => A.Attr(A.TagsKey, A.StringValue(tags[i])))
  }

  /** Read under tag.tags, the tag attributes give back the tags in order; under any other key, nothing. */
  lemma {:induction false} TagAttrsReadBack(tags: seq<string>, key: string)
    ensures ValuesUnder(TagAttrs(tags), key) == (if key == A.TagsKey then StringValues(tags) else [])
    decreases |tags|
  {
    if |tags| > 0 {
      var n := |tags| - 1;
      assert TagAttrs(tags)[..n] == TagAttrs(tags[..n]);
      TagAttrsReadBack(tags[..n], key);
      if key == A.TagsKey {
        assert StringValues(tags) == StringValues(tags[..n]) + [A.StringValue(tags[n])];
      }
    }
  }

  // ---- value conversion ------------------------------------------------

  /** string(b) for a byte slice, one character per byte. */
  function BytesText(b: seq<bv8>): (s: string)
    ensures |s| == |b| && forall i :: 0 <= i < |b| ==> s[i] as int == b[i] as int
  {
    seq(|b|, i requires 0 <= i < |b| => (b[i] as int) as char)
  }

  /**
   * toString: "" for nil, a string as it is, a byte slice as its text, and
   * anything else as its JSON encoding, or "" when encoding fails.
   */
  function ToString(v: Value, marshal: Marshal): (s: string)
    ensures v.Nil? ==> s == ""
    ensures v.Str? ==> s == v.str
    ensures v.Bytes? ==> s == BytesText(v.bytes)
    ensures !(v.Nil? || v.Str? || v.Bytes?) ==> s == (if marshal(v).Some? then marshal(v).value else "")
  {
    match v
    case Nil => ""
    case Str(str) => str
    case Bytes(bytes) => BytesText(bytes)
    case _ => match marshal(v) case Some(data) => data case None => ""
  }

  /** A string passes through toString whatever the encoder does. */
  lemma ToStringKeepsStrings(str: string, m1: Marshal, m2: Marshal)
    ensures ToString(Str(str), m1) == ToString(Str(str), m2) == str
  {
  }

  // ---- feedback --------------------------------------------------------

  const FeedbackEvent := "feedback"
  const FeedbackName := "feedback.name"
  const FeedbackScore := "feedback.score"
  const FeedbackReason := "feedback.reason"
  const FeedbackCategory := "feedback.category"
  const FeedbackSource := "feedback.source"

  function OptionalString(key: string, value: string): (attrs: seq<A.Attr>)
    ensures |attrs| <= 1
    ensures |attrs| == 1 <==> value != ""
    ensures |attrs| == 1 ==> attrs[0] == A.Attr(key, A.StringValue(value))
  {
    if value != "" then [A.Attr(key, A.StringValue(value))] else []
  }

  /**
   * buildFeedbackAttrs: the name and the score first, then reason, category and
   * source in that order, each only when non-empty.
   */
  function FeedbackAttrs(name: string, score: Float64, cfg: FeedbackOptions): (attrs: seq<A.Attr>)
    ensures 2 <= |attrs| <= 5
    ensures attrs[0] == A.Attr(FeedbackName, A.StringValue(name))
    ensures attrs[1] == A.Attr(FeedbackScore, A.FloatValue(score))
    ensures |attrs| == 2 + (if cfg.reason != "" then 1 else 0) + (if cfg.category != "" then 1 else 0)
      + (if cfg.source != "" then 1 else 0)
  {
    [A.Attr(FeedbackName, A.StringValue(name)), A.Attr(FeedbackScore, A.FloatValue(score))]
      + OptionalString(FeedbackReason, cfg.reason)
      + OptionalString(FeedbackCategory, cfg.category)
      + OptionalString(FeedbackSource, cfg.source)
  }

  lemma OptionalStringUnder(k: string, v: string, key: string)
    ensures ValuesUnder(OptionalString(k, v), key) == (if v != "" && k == key then [A.StringValue(v)] else [])
  {
    if v != "" {
      ValuesUnderOne(A.Attr(k, A.StringValue(v)), key);
    }
  }

  /** The feedback attributes read, under any key, as their five parts read in order. */
  lemma FeedbackAttrsParts(name: string, score: Float64, cfg: FeedbackOptions, key: string)
    ensures ValuesUnder(FeedbackAttrs(name, score, cfg), key) ==
      ValuesUnder([A.Attr(FeedbackName, A.StringValue(name))], key) + ValuesUnder([A.Attr(FeedbackScore, A.FloatValue(score))], key)
      + ValuesUnder(OptionalString(FeedbackReason, cfg.reason), key) + ValuesUnder(OptionalString(FeedbackCategory, cfg.category), key)
      + ValuesUnder(OptionalString(FeedbackSource, cfg.source), key)
  {
    var h0, h1 := A.Attr(FeedbackName, A.StringValue(name)), A.Attr(FeedbackScore, A.FloatValue(score));
    var r := OptionalString(FeedbackReason, cfg.reason);
    var c := OptionalString(FeedbackCategory, cfg.category);
    var o := OptionalString(FeedbackSource, cfg.source);
    assert [h0, h1] == [h0] + [h1];
    ValuesUnderFive([h0], [h1], r, c, o, key);
  }

  lemma FeedbackAttrsSplit(name: string, score: Float64, cfg: FeedbackOptions, key: string)
    ensures ValuesUnder(FeedbackAttrs(name, score, cfg), key) ==
      (if FeedbackName == key then [A.StringValue(name)] else [])
      + (if FeedbackScore == key then [A.FloatValue(score)] else [])
      + (if cfg.reason != "" && FeedbackReason == key then [A.StringValue(cfg.reason)] else [])
      + (if cfg.category != "" && FeedbackCategory == key then [A.StringValue(cfg.category)] else [])
      + (if cfg.source != "" && FeedbackSource == key then [A.StringValue(cfg.source)] else [])
  {
    var h0, h1 := A.Attr(FeedbackName, A.StringValue(name)), A.Attr(FeedbackScore, A.FloatValue(score));
    FeedbackAttrsParts(name, score, cfg, key);
    ValuesUnderOne(h0, key);
    ValuesUnderOne(h1, key);
    OptionalStringUnder(FeedbackReason, cfg.reason, key);
    OptionalStringUnder(FeedbackCategory, cfg.category, key);
    OptionalStringUnder(FeedbackSource, cfg.source, key);
  }

  lemma ValuesUnderFive(a: seq<A.Attr>, b: seq<A.Attr>, c: seq<A.Attr>, d: seq<A.Attr>, e: seq<A.Attr>, key: string)
    ensures ValuesUnder(a + b + c + d + e, key)
         == ValuesUnder(a, key) + ValuesUnder(b, key) + ValuesUnder(c, key) + ValuesUnder(d, key) + ValuesUnder(e, key)
  {
    ValuesUnderAppend(a + b + c + d, e, key);
    ValuesUnderAppend(a + b + c, d, key);
    ValuesUnderAppend(a + b, c, key);
    ValuesUnderAppend(a, b, key);
  }

  lemma FeedbackKeysDistinct()
    ensures FeedbackName != FeedbackScore && FeedbackName != FeedbackReason
    ensures FeedbackName != FeedbackCategory && FeedbackName != FeedbackSource
    ensures FeedbackScore != FeedbackReason && FeedbackScore != FeedbackCategory && FeedbackScore != FeedbackSource
    ensures FeedbackReason != FeedbackCategory && FeedbackReason != FeedbackSource
    ensures FeedbackCategory != FeedbackSource
  {
    assert FeedbackName[9] == 'n' && FeedbackScore[9] == 's' && FeedbackReason[9] == 'r';
    assert FeedbackCategory[9] == 'c' && FeedbackSource[9] == 's';
    assert FeedbackScore[10] == 'c' && FeedbackSource[10] == 'o';
  }

  /** Read back, each optional feedback attribute holds its option exactly when that option is non-empty. */
  lemma FeedbackAttrsReadBack(name: string, score: Float64, cfg: FeedbackOptions)
    ensures var attrs := FeedbackAttrs(name, score, cfg);
      ValuesUnder(attrs, FeedbackName) == [A.StringValue(name)] &&
      ValuesUnder(attrs, FeedbackScore) == [A.FloatValue(score)] &&
      ValuesUnder(attrs, FeedbackReason) == (if cfg.reason != "" then [A.StringValue(cfg.reason)] else []) &&
      ValuesUnder(attrs, FeedbackCategory) == (if cfg.category != "" then [A.StringValue(cfg.category)] else []) &&
      ValuesUnder(attrs, FeedbackSource) == (if cfg.source != "" then [A.StringValue(cfg.source)] else [])
  {
    FeedbackHeadReadBack(name, score, cfg);
    FeedbackOptionalReadBack(name, score, cfg, FeedbackReason, cfg.reason);
    FeedbackOptionalReadBack(name, score, cfg, FeedbackCategory, cfg.category);
    FeedbackOptionalReadBack(name, score, cfg, FeedbackSource, cfg.source);
  }

  lemma FeedbackHeadReadBack(name: string, score: Float64, cfg: FeedbackOptions)
    ensures ValuesUnder(FeedbackAttrs(name, score, cfg), FeedbackName) == [A.StringValue(name)]
    ensures ValuesUnder(FeedbackAttrs(name, score, cfg), FeedbackScore) == [A.FloatValue(score)]
  {
    FeedbackKeysDistinct();
    FeedbackAttrsSplit(name, score, cfg, FeedbackName);
    FeedbackAttrsSplit(name, score, cfg, FeedbackScore);
  }

  lemma FeedbackOptionalReadBack(name: string, score: Float64, cfg: FeedbackOptions, key: string, v: string)
    requires (key == FeedbackReason && v == cfg.reason) || (key == FeedbackCategory && v == cfg.category)
      || (key == FeedbackSource && v == cfg.source)
    ensures ValuesUnder(FeedbackAttrs(name, score, cfg), key) == (if v != "" then [A.StringValue(v)] else [])
  {
    FeedbackKeysDistinct();
    FeedbackAttrsSplit(name, score, cfg, key);
  }

  // ---- attribute groups ------------------------------------------------

  /** SetInput / SetOutput / SetMetadata as attribute lists. */
  function InputAttrs(input: Value, marshal: Marshal): seq<A.Attr> {
    if input.Nil? then [] else [A.WithInput(ToString(input, marshal))]
  }

  function OutputAttrs(output: Value, marshal: Marshal): seq<A.Attr> {
    if output.Nil? then [] else [A.WithOutput(ToString(output, marshal))]
  }

  /** SetMetadata: the JSON of the map, or nothing when the map does not encode. */
  function EncodedMetadata(metadata: map<string, Value>, marshal: Marshal): seq<A.Attr> {
    match marshal(Object(metadata))
    case Some(data) => [A.WithMetadata(data)]
    case None => []
  }

  function MetadataAttrs(metadata: Option<map<string, Value>>, marshal: Marshal): seq<A.Attr> {
    if metadata.Some? then EncodedMetadata(metadata.value, marshal) else []
  }

  /** What newTrace writes: input, metadata, the tags, then session.id for a thread. */
  function TraceStartAttrs(cfg: TraceOptions, marshal: Marshal): seq<A.Attr> {
    InputAttrs(cfg.input, marshal) + MetadataAttrs(cfg.metadata, marshal) + TagAttrs(cfg.tags)
      + (if cfg.threadID != "" then [A.WithSessionID(cfg.threadID)] else [])
  }

  /** What End writes: the output and the metadata, each only when provided. */
  function EndAttrs(opts: EndOptions, marshal: Marshal): seq<A.Attr> {
    OutputAttrs(opts.output, marshal) + MetadataAttrs(opts.metadata, marshal)
  }

  /**
   * mapSpanTypeToOpenInference: the six named types to their kinds, anything
   * else (general, unknown) to CHAIN.
   */
  function MapSpanType(t: SpanType): (kind: string)
    ensures t.SpanTypeLLM? ==> kind == A.SpanKindLLM
    ensures t.SpanTypeTool? ==> kind == A.SpanKindTool
    ensures t.SpanTypeAgent? ==> kind == A.SpanKindAgent
    ensures t.SpanTypeRetrieval? ==> kind == A.SpanKindRetriever
    ensures t.SpanTypeGuardrail? ==> kind == A.SpanKindGuardrail
    ensures !(t.SpanTypeLLM? || t.SpanTypeTool? || t.SpanTypeAgent? || t.SpanTypeRetrieval? || t.SpanTypeGuardrail?)
      ==> kind == A.SpanKindChain
  {
    match t
    case SpanTypeLLM => A.SpanKindLLM
    case SpanTypeTool => A.SpanKindTool
    case SpanTypeAgent => A.SpanKindAgent
    case SpanTypeChain => A.SpanKindChain
    case SpanTypeRetrieval => A.SpanKindRetriever
    case SpanTypeGuardrail => A.SpanKindGuardrail
    case _ => A.SpanKindChain
  }

  /** The kinds no span type maps to. */
  lemma NeverEmbeddingOrReranker(t: SpanType)
    ensures MapSpanType(t) != A.SpanKindEmbedding && MapSpanType(t) != A.SpanKindReranker
  {
    assert A.SpanKindEmbedding[0] == 'E' && A.SpanKindReranker[0] == 'R';
    assert A.SpanKindLLM[0] == 'L' && A.SpanKindChain[0] == 'C' && A.SpanKindTool[0] == 'T';
    assert A.SpanKindAgent[0] == 'A' && A.SpanKindRetriever[1] == 'E' && A.SpanKindGuardrail[0] == 'G';
  }

  function KindAttrs(t: SpanType): seq<A.Attr> {
    if t != NoType then [A.WithSpanKind(MapSpanType(t))] else []
  }

  function UsageAttrs(usage: Option<TokenUsage>): seq<A.Attr> {
    if usage.Some? then A.WithTokenCounts(usage.value.promptTokens, usage.value.completionTokens, usage.value.totalTokens)
    else []
  }

  /** What newSpan writes: kind, input, metadata, tags, model, provider, then usage. */
  function SpanStartAttrs(cfg: SpanOptions, marshal: Marshal): seq<A.Attr> {
    KindAttrs(cfg.spanType) + InputAttrs(cfg.input, marshal) + MetadataAttrs(cfg.metadata, marshal)
      + TagAttrs(cfg.tags)
      + (if cfg.model != "" then [A.WithModelName(cfg.model)] else [])
      + (if cfg.provider != "" then [A.WithLLMProvider(cfg.provider)] else [])
      + UsageAttrs(cfg.usage)
  }

  /** The attribute keys the wrappers write are pairwise different. */
  lemma WrapperKeysDiffer()
    ensures A.InputValue != A.MetadataKey && A.InputValue != A.TagsKey && A.InputValue != A.SessionID
    ensures A.MetadataKey != A.TagsKey && A.MetadataKey != A.SessionID && A.TagsKey != A.SessionID
    ensures A.OpenInferenceSpanKind !in {A.InputValue, A.MetadataKey, A.TagsKey, A.LLMModelName, A.LLMProvider}
    ensures A.OpenInferenceSpanKind !in {A.LLMTokenCountPrompt, A.LLMTokenCountCompletion, A.LLMTokenCountTotal}
    ensures A.LLMTokenCountTotal !in {A.InputValue, A.MetadataKey, A.TagsKey, A.LLMModelName, A.LLMProvider}
    ensures A.LLMTokenCountTotal != A.LLMTokenCountPrompt && A.LLMTokenCountTotal != A.LLMTokenCountCompletion
    ensures A.TagsKey !in {A.LLMModelName, A.LLMProvider, A.LLMTokenCountPrompt, A.LLMTokenCountCompletion}
    ensures A.OutputValue != A.MetadataKey
  {
    assert A.InputValue[0] == 'i' && A.MetadataKey[0] == 'm' && A.TagsKey[0] == 't' && A.SessionID[0] == 's';
    assert A.OpenInferenceSpanKind[0] == 'o' && A.LLMModelName[0] == 'l' && A.LLMProvider[0] == 'l';
    assert A.LLMTokenCountPrompt[0] == 'l' && A.LLMTokenCountCompletion[0] == 'l' && A.LLMTokenCountTotal[0] == 'l';
    assert A.LLMModelName[4] == 'm' && A.LLMProvider[4] == 'p' && A.LLMTokenCountTotal[4] == 't';
    assert A.LLMTokenCountPrompt[16] == 'p' && A.LLMTokenCountCompletion[16] == 'c' && A.LLMTokenCountTotal[16] == 't';
    assert A.OutputValue[0] == 'o';
  }

  /**
   * Read back, what newTrace writes holds the input only when one was given,
   * one tag value per tag in order, and session.id exactly for a thread.
   */
  lemma TraceStartReadBack(cfg: TraceOptions, marshal: Marshal)
    ensures ValuesUnder(TraceStartAttrs(cfg, marshal), A.InputValue) ==
      (if cfg.input.Nil? then [] else [A.StringValue(ToString(cfg.input, marshal))])
    ensures ValuesUnder(TraceStartAttrs(cfg, marshal), A.TagsKey) == StringValues(cfg.tags)
    ensures ValuesUnder(TraceStartAttrs(cfg, marshal), A.SessionID) ==
      (if cfg.threadID != "" then [A.StringValue(cfg.threadID)] else [])
  {
    WrapperKeysDiffer();
    TraceStartUnder(cfg, marshal, A.InputValue);
    TraceStartUnder(cfg, marshal, A.TagsKey);
    TraceStartUnder(cfg, marshal, A.SessionID);
    MetadataUnder(cfg.metadata, marshal, A.InputValue);
    MetadataUnder(cfg.metadata, marshal, A.TagsKey);
    MetadataUnder(cfg.metadata, marshal, A.SessionID);
  }

  /** Under any key, what newTrace writes reads as its four groups in order. */
  lemma TraceStartUnder(cfg: TraceOptions, marshal: Marshal, key: string)
    ensures ValuesUnder(TraceStartAttrs(cfg, marshal), key) ==
      (if !cfg.input.Nil? && key == A.InputValue then [A.StringValue(ToString(cfg.input, marshal))] else [])
      + ValuesUnder(MetadataAttrs(cfg.metadata, marshal), key)
      + (if key == A.TagsKey then StringValues(cfg.tags) else [])
      + (if cfg.threadID != "" && key == A.SessionID then [A.StringValue(cfg.threadID)] else [])
  {
    var i := InputAttrs(cfg.input, marshal);
    var m := MetadataAttrs(cfg.metadata, marshal);
    var t := TagAttrs(cfg.tags);
    var session := if cfg.threadID != "" then [A.WithSessionID(cfg.threadID)] else [];
    ValuesUnderAppend(i + m + t, session, key);
    ValuesUnderAppend(i + m, t, key);
    ValuesUnderAppend(i, m, key);
    SingleValues(i, key);
    SingleValues(session, key);
    TagAttrsReadBack(cfg.tags, key);
  }

  /** The metadata group holds at most one attribute, under the metadata key. */
  lemma MetadataUnder(metadata: Option<map<string, Value>>, marshal: Marshal, key: string)
    ensures key != A.MetadataKey ==> ValuesUnder(MetadataAttrs(metadata, marshal), key) == []
    ensures key == A.MetadataKey ==> (ValuesUnder(MetadataAttrs(metadata, marshal), key) ==
      (if metadata.Some? && marshal(Object(metadata.value)).Some?
       then [A.StringValue(marshal(Object(metadata.value)).value)] else []))
  {
    SingleValues(MetadataAttrs(metadata, marshal), key);
  }

  /** Read back, what End writes holds the output and the metadata only when they were provided. */
  lemma EndReadBack(opts: EndOptions, marshal: Marshal)
    ensures ValuesUnder(EndAttrs(opts, marshal), A.OutputValue) ==
      (if opts.output.Nil? then [] else [A.StringValue(ToString(opts.output, marshal))])
    ensures ValuesUnder(EndAttrs(opts, marshal), A.MetadataKey) ==
      (if opts.metadata.Some? && marshal(Object(opts.metadata.value)).Some?
       then [A.StringValue(marshal(Object(opts.metadata.value)).value)] else [])
  {
    WrapperKeysDiffer();
    var o := OutputAttrs(opts.output, marshal);
    var m := MetadataAttrs(opts.metadata, marshal);
    ValuesUnderAppend(o, m, A.OutputValue);
    ValuesUnderAppend(o, m, A.MetadataKey);
    SingleValues(o, A.OutputValue);
    SingleValues(o, A.MetadataKey);
    MetadataUnder(opts.metadata, marshal, A.OutputValue);
    MetadataUnder(opts.metadata, marshal, A.MetadataKey);
  }

  /** Under any key, the token counts read as their three attributes in order. */
  lemma UsageUnder(usage: Option<TokenUsage>, key: string)
    ensures usage.None? ==> ValuesUnder(UsageAttrs(usage), key) == []
    ensures usage.Some? ==> (ValuesUnder(UsageAttrs(usage), key) ==
      (if key == A.LLMTokenCountPrompt then [A.IntValue(usage.value.promptTokens)] else [])
      + (if key == A.LLMTokenCountCompletion then [A.IntValue(usage.value.completionTokens)] else [])
      + (if key == A.LLMTokenCountTotal then [A.IntValue(usage.value.totalTokens)] else []))
  {
    var u := UsageAttrs(usage);
    if usage.Some? {
      assert u == [u[0]] + [u[1]] + [u[2]];
      ValuesUnderAppend([u[0]] + [u[1]], [u[2]], key);
      ValuesUnderAppend([u[0]], [u[1]], key);
      ValuesUnderOne(u[0], key);
      ValuesUnderOne(u[1], key);
      ValuesUnderOne(u[2], key);
    }
  }

  /** Under any key, what newSpan writes reads as its seven groups in order. */
  lemma SpanStartUnder(cfg: SpanOptions, marshal: Marshal, key: string)
    ensures ValuesUnder(SpanStartAttrs(cfg, marshal), key) ==
      (if cfg.spanType != NoType && key == A.OpenInferenceSpanKind then [A.StringValue(MapSpanType(cfg.spanType))] else [])
      + (if !cfg.input.Nil? && key == A.InputValue then [A.StringValue(ToString(cfg.input, marshal))] else [])
      + ValuesUnder(MetadataAttrs(cfg.metadata, marshal), key)
      + (if key == A.TagsKey then StringValues(cfg.tags) else [])
      + (if cfg.model != "" && key == A.LLMModelName then [A.StringValue(cfg.model)] else [])
      + (if cfg.provider != "" && key == A.LLMProvider then [A.StringValue(cfg.provider)] else [])
      + ValuesUnder(UsageAttrs(cfg.usage), key)
  {
    var head := KindAttrs(cfg.spanType) + InputAttrs(cfg.input, marshal) + MetadataAttrs(cfg.metadata, marshal)
      + TagAttrs(cfg.tags);
    var model := if cfg.model != "" then [A.WithModelName(cfg.model)] else [];
    var provider := if cfg.provider != "" then [A.WithLLMProvider(cfg.provider)] else [];
    var u := UsageAttrs(cfg.usage);
    ValuesUnderAppend(head + model + provider, u, key);
    ValuesUnderAppend(head + model, provider, key);
    ValuesUnderAppend(head, model, key);
    SingleValues(model, key);
    SingleValues(provider, key);
    SpanHeadUnder(cfg, marshal, key);
  }

  /** The first four groups of newSpan - kind, input, metadata and tags - read under a key. */
  lemma SpanHeadUnder(cfg: SpanOptions, marshal: Marshal, key: string)
    ensures ValuesUnder(KindAttrs(cfg.spanType) + InputAttrs(cfg.input, marshal)
        + MetadataAttrs(cfg.metadata, marshal) + TagAttrs(cfg.tags), key) ==
      (if cfg.spanType != NoType && key == A.OpenInferenceSpanKind then [A.StringValue(MapSpanType(cfg.spanType))] else [])
      + (if !cfg.input.Nil? && key == A.InputValue then [A.StringValue(ToString(cfg.input, marshal))] else [])
      + ValuesUnder(MetadataAttrs(cfg.metadata, marshal), key)
      + (if key == A.TagsKey then StringValues(cfg.tags) else [])
  {
    ValuesUnderFour(KindAttrs(cfg.spanType), InputAttrs(cfg.input, marshal),
      MetadataAttrs(cfg.metadata, marshal), TagAttrs(cfg.tags), key);
    KindUnder(cfg.spanType, key);
    InputUnder(cfg.input, marshal, key);
    TagAttrsReadBack(cfg.tags, key);
  }

  lemma ValuesUnderFour(a: seq<A.Attr>, b: seq<A.Attr>, c: seq<A.Attr>, d: seq<A.Attr>, key: string)
    ensures ValuesUnder(a + b + c + d, key)
         == ValuesUnder(a, key) + ValuesUnder(b, key) + ValuesUnder(c, key) + ValuesUnder(d, key)
  {
    ValuesUnderAppend(a + b + c, d, key);
    ValuesUnderAppend(a + b, c, key);
    ValuesUnderAppend(a, b, key);
  }

  lemma KindUnder(t: SpanType, key: string)
    ensures ValuesUnder(KindAttrs(t), key)
         == (if t != NoType && key == A.OpenInferenceSpanKind then [A.StringValue(MapSpanType(t))] else [])
  {
    SingleValues(KindAttrs(t), key);
  }

  lemma InputUnder(input: Value, marshal: Marshal, key: string)
    ensures ValuesUnder(InputAttrs(input, marshal), key)
         == (if !input.Nil? && key == A.InputValue then [A.StringValue(ToString(input, marshal))] else [])
  {
    SingleValues(InputAttrs(input, marshal), key);
  }

  /**
   * Read back, what newSpan writes holds the span kind exactly when a type
   * was given, one tag value per tag in order, and the total token count only
   * with usage.
   */
  lemma SpanStartReadBack(cfg: SpanOptions, marshal: Marshal)
    ensures ValuesUnder(SpanStartAttrs(cfg, marshal), A.OpenInferenceSpanKind) ==
      (if cfg.spanType != NoType then [A.StringValue(MapSpanType(cfg.spanType))] else [])
    ensures ValuesUnder(SpanStartAttrs(cfg, marshal), A.TagsKey) == StringValues(cfg.tags)
    ensures ValuesUnder(SpanStartAttrs(cfg, marshal), A.LLMTokenCountTotal) ==
      (if cfg.usage.Some? then [A.IntValue(cfg.usage.value.totalTokens)] else [])
  {
    SpanStartKindBack(cfg, marshal);
    SpanStartTagsBack(cfg, marshal);
    SpanStartTotalBack(cfg, marshal);
  }

  lemma SpanStartKindBack(cfg: SpanOptions, marshal: Marshal)
    ensures ValuesUnder(SpanStartAttrs(cfg, marshal), A.OpenInferenceSpanKind) ==
      (if cfg.spanType != NoType then [A.StringValue(MapSpanType(cfg.spanType))] else [])
  {
    WrapperKeysDiffer();
    SpanStartUnder(cfg, marshal, A.OpenInferenceSpanKind);
    MetadataUnder(cfg.metadata, marshal, A.OpenInferenceSpanKind);
    UsageUnder(cfg.usage, A.OpenInferenceSpanKind);
  }

  lemma SpanStartTagsBack(cfg: SpanOptions, marshal: Marshal)
    ensures ValuesUnder(SpanStartAttrs(cfg, marshal), A.TagsKey) == StringValues(cfg.tags)
  {
    WrapperKeysDiffer();
    SpanStartUnder(cfg, marshal, A.TagsKey);
    MetadataUnder(cfg.metadata, marshal, A.TagsKey);
    UsageUnder(cfg.usage, A.TagsKey);
  }

  lemma SpanStartTotalBack(cfg: SpanOptions, marshal: Marshal)
    ensures ValuesUnder(SpanStartAttrs(cfg, marshal), A.LLMTokenCountTotal) ==
      (if cfg.usage.Some? then [A.IntValue(cfg.usage.value.totalTokens)] else [])
  {
    WrapperKeysDiffer();
    SpanStartUnder(cfg, marshal, A.LLMTokenCountTotal);
    MetadataUnder(cfg.metadata, marshal, A.LLMTokenCountTotal);
    UsageUnder(cfg.usage, A.LLMTokenCountTotal);
  }

  /** An attribute list of at most one element, read under a key. */
  lemma SingleValues(attrs: seq<A.Attr>, key: string)
    requires |attrs| <= 1
    ensures ValuesUnder(attrs, key) == (if |attrs| == 1 && attrs[0].key == key then [attrs[0].value] else [])
  {
    if |attrs| == 1 {
      ValuesUnderOne(attrs[0], key);
      assert attrs == [attrs[0]];
    }
  }

  // ---- context ---------------------------------------------------------

  /** The two wrapper slots of a context.Context. */
  datatype Context = Context(trace: Option<TraceWrapper>, span: Option<SpanWrapper>)

  const Background := Context(None, None)

  /** contextWithTrace: the trace slot holds t afterwards, the span slot is untouched. */
  function ContextWithTrace(ctx: Context, t: TraceWrapper): (r: Context)
    ensures TraceFromContext(r) == Some(t) && SpanFromContext(r) == SpanFromContext(ctx)
  {
    ctx.(trace := Some(t))
  }

  /** contextWithSpan: the span slot holds s afterwards, the trace slot is untouched. */
  function ContextWithSpan(ctx: Context, s: SpanWrapper): (r: Context)
    ensures SpanFromContext(r) == Some(s) && TraceFromContext(r) == TraceFromContext(ctx)
  {
    ctx.(span := Some(s))
  }

  /** traceFromContext: the stored trace, None on a context without one. */
  function TraceFromContext(ctx: Context): Option<TraceWrapper> {
    ctx.trace
  }

  /** spanFromContext: the stored span, None on a context without one. */
  function SpanFromContext(ctx: Context): Option<SpanWrapper> {
    ctx.span
  }

  // ---- the wrappers ----------------------------------------------------

  /** traceWrapper (its provider is only used for the tracer, whose new spans are inputs here). */
  class TraceWrapper {
    const otelSpan: OtelSpan
    const name: string
    const startTime: Time
    var endTime: Option<Time>

    /** newTrace: writes the configured input, metadata, tags and thread onto the OTel span. */
    constructor (name: string, otelSpan: OtelSpan, cfg: TraceOptions, now: Time, marshal: Marshal)
      modifies otelSpan
      ensures this.otelSpan == otelSpan && this.name == name && startTime == now && endTime == None
      ensures otelSpan.attrs == old(otelSpan.attrs) + TraceStartAttrs(cfg, marshal)
      ensures otelSpan.events == old(otelSpan.events) && otelSpan.errors == old(otelSpan.errors)
      ensures otelSpan.ended == old(otelSpan.ended)
    {
      this.otelSpan, this.name, startTime, endTime := otelSpan, name, now, None;
      new;
      // Each group is empty when its option is absent, as the guards of newTrace leave it.
      ghost var a0 := otelSpan.attrs;
      otelSpan.SetAttributes(InputAttrs(cfg.input, marshal));
      ghost var written := InputAttrs(cfg.input, marshal);
      otelSpan.SetAttributes(MetadataAttrs(cfg.metadata, marshal));
      AppendAssoc(a0, written, MetadataAttrs(cfg.metadata, marshal));
      written := written + MetadataAttrs(cfg.metadata, marshal);
      AddTags(cfg.tags);
      AppendAssoc(a0, written, TagAttrs(cfg.tags));
      written := written + TagAttrs(cfg.tags);
      var session := if cfg.threadID != "" then [A.WithSessionID(cfg.threadID)] else [];
      otelSpan.SetAttributes(session);
      AppendAssoc(a0, written, session);
    }

    /** The tag loop of newTrace: one tag attribute per tag, in order. */
    method AddTags(tags: seq<string>)
      modifies otelSpan
      ensures otelSpan.attrs == old(otelSpan.attrs) + TagAttrs(tags)
      ensures otelSpan.events == old(otelSpan.events) && otelSpan.errors == old(otelSpan.errors)
      ensures otelSpan.ended == old(otelSpan.ended)
    {
      var i := 0;
      while i < |tags|
        invariant 0 <= i <= |tags|
        invariant otelSpan.attrs == old(otelSpan.attrs) + TagAttrs(tags[..i])
        invariant otelSpan.events == old(otelSpan.events) && otelSpan.errors == old(otelSpan.errors)
        invariant otelSpan.ended == old(otelSpan.ended)
      {
        assert TagAttrs(tags[..i + 1]) == TagAttrs(tags[..i]) + [A.Attr(A.TagsKey, A.StringValue(tags[i]))];
        AddTag(tags[i]);
        i := i + 1;
      }
      assert tags[..i] == tags;
    }

    /** ID: the OTel trace ID. */
    function ID(): (id: string)
      ensures id == otelSpan.traceID
    {
      otelSpan.traceID
    }

    method SetInput(input: Value, marshal: Marshal)
      modifies otelSpan
      ensures otelSpan.attrs == old(otelSpan.attrs) + [A.WithInput(ToString(input, marshal))]
      ensures otelSpan.events == old(otelSpan.events) && otelSpan.errors == old(otelSpan.errors)
      ensures otelSpan.ended == old(otelSpan.ended)
    {
      otelSpan.SetAttributes([A.WithInput(ToString(input, marshal))]);
    }

    method SetOutput(output: Value, marshal: Marshal)
      modifies otelSpan
      ensures otelSpan.attrs == old(otelSpan.attrs) + [A.WithOutput(ToString(output, marshal))]
      ensures otelSpan.events == old(otelSpan.events) && otelSpan.errors == old(otelSpan.errors)
      ensures otelSpan.ended == old(otelSpan.ended)
    {
      otelSpan.SetAttributes([A.WithOutput(ToString(output, marshal))]);
    }

    method SetMetadata(metadata: map<string, Value>, marshal: Marshal)
      modifies otelSpan
      ensures otelSpan.attrs == old(otelSpan.attrs) + EncodedMetadata(metadata, marshal)
      ensures otelSpan.events == old(otelSpan.events) && otelSpan.errors == old(otelSpan.errors)
      ensures otelSpan.ended == old(otelSpan.ended)
    {
      var data := marshal(Object(metadata));
      if data.Some? {
        otelSpan.SetAttributes([A.WithMetadata(data.value)]);
      }
    }

    method AddTag(tag: string)
      modifies otelSpan
      ensures otelSpan.attrs == old(otelSpan.attrs) + [A.Attr(A.TagsKey, A.StringValue(tag))]
      ensures otelSpan.events == old(otelSpan.events) && otelSpan.errors == old(otelSpan.errors)
      ensures otelSpan.ended == old(otelSpan.ended)
    {
      otelSpan.SetAttributes([A.Attr(A.TagsKey, A.StringValue(tag))]);
    }

    /** StartSpan: a child in this trace (trace ID = this ID, no parent span), stored in the span slot. */
    method StartSpan(ctx: Context, name: string, cfg: SpanOptions, child: OtelSpan, now: Time, marshal: Marshal)
      returns (next: Context, s: SpanWrapper)
      modifies child
      ensures fresh(s) && s.otelSpan == child && s.name == name && s.spanType == cfg.spanType
      ensures s.traceID == ID() && s.parentSpanID == "" && s.startTime == now && s.endTime == None
      ensures child.attrs == old(child.attrs) + SpanStartAttrs(cfg, marshal)
      ensures next == ContextWithSpan(ctx, s)
    {
      s := new SpanWrapper(name, child, ID(), "", cfg, now, marshal);
      next := ContextWithSpan(ctx, s);
    }

    /** AddFeedbackScore: exactly one "feedback" event with the feedback attributes. */
    method AddFeedbackScore(name: string, score: Float64, cfg: FeedbackOptions)
      modifies otelSpan
      ensures otelSpan.events == old(otelSpan.events) + [Event(FeedbackEvent, FeedbackAttrs(name, score, cfg))]
      ensures otelSpan.attrs == old(otelSpan.attrs) && otelSpan.errors == old(otelSpan.errors)
      ensures otelSpan.ended == old(otelSpan.ended)
    {
      otelSpan.AddEvent(FeedbackEvent, FeedbackAttrs(name, score, cfg));
    }

    /** End: the provided output and metadata, the error if any, then the span ends at `now`. */
    method End(opts: EndOptions, now: Time, marshal: Marshal)
      modifies this, otelSpan
      ensures otelSpan.attrs == old(otelSpan.attrs) + EndAttrs(opts, marshal)
      ensures otelSpan.errors == old(otelSpan.errors) + (if opts.err.Some? then [opts.err.value] else [])
      ensures otelSpan.events == old(otelSpan.events) && otelSpan.ended
      ensures endTime == Some(now)
      ensures EndTime() == Some(now) && forall later :: Duration(later) == now - startTime
    {
      if !opts.output.Nil? {
        otelSpan.SetAttributes([A.WithOutput(ToString(opts.output, marshal))]);
      }
      if opts.metadata.Some? {
        var data := marshal(Object(opts.metadata.value));
        if data.Some? {
          otelSpan.SetAttributes([A.WithMetadata(data.value)]);
        }
      }
      if opts.err.Some? {
        otelSpan.RecordError(opts.err.value);
      }
      otelSpan.End();
      endTime := Some(now);
    }

    /** EndTime: None until End. */
    function EndTime(): Option<Time>
      reads this
    {
      endTime
    }

    /** Duration: end minus start once ended, else the time since the start. */
    function Duration(now: Time): (d: Observe.Duration)
      reads this
      ensures endTime.Some? ==> d == endTime.value - startTime
      ensures endTime.None? ==> d == now - startTime
    {
      if endTime.Some? then endTime.value - startTime else now - startTime
    }
  }

  /** spanWrapper */
  class SpanWrapper {
    const otelSpan: OtelSpan
    const traceID: string
    const parentSpanID: string
    const name: string
    const spanType: SpanType
    const startTime: Time
    var endTime: Option<Time>

    /** newSpan: writes the configured kind, input, metadata, tags, model, provider and usage. */
    constructor (name: string, otelSpan: OtelSpan, traceID: string, parentSpanID: string, cfg: SpanOptions,
                 now: Time, marshal: Marshal)
      modifies otelSpan
      ensures this.otelSpan == otelSpan && this.name == name && this.traceID == traceID
      ensures this.parentSpanID == parentSpanID && spanType == cfg.spanType
      ensures startTime == now && endTime == None
      ensures otelSpan.attrs == old(otelSpan.attrs) + SpanStartAttrs(cfg, marshal)
      ensures otelSpan.events == old(otelSpan.events) && otelSpan.errors == old(otelSpan.errors)
      ensures otelSpan.ended == old(otelSpan.ended)
    {
      this.otelSpan, this.name, this.traceID, this.parentSpanID := otelSpan, name, traceID, parentSpanID;
      spanType, startTime, endTime := cfg.spanType, now, None;
      new;
      WriteStart(cfg, marshal);
    }

    /**
     * The attribute writes of newSpan, in its order.  Each group is empty when
     * its option is absent, as the guards of newSpan leave it.
     */
    method WriteStart(cfg: SpanOptions, marshal: Marshal)
      modifies otelSpan
      ensures otelSpan.attrs == old(otelSpan.attrs) + SpanStartAttrs(cfg, marshal)
      ensures otelSpan.events == old(otelSpan.events) && otelSpan.errors == old(otelSpan.errors)
      ensures otelSpan.ended == old(otelSpan.ended)
    {
      ghost var a0 := otelSpan.attrs;
      otelSpan.SetAttributes(KindAttrs(cfg.spanType));
      ghost var written := KindAttrs(cfg.spanType);
      otelSpan.SetAttributes(InputAttrs(cfg.input, marshal));
      AppendAssoc(a0, written, InputAttrs(cfg.input, marshal));
      written := written + InputAttrs(cfg.input, marshal);
      otelSpan.SetAttributes(MetadataAttrs(cfg.metadata, marshal));
      AppendAssoc(a0, written, MetadataAttrs(cfg.metadata, marshal));
      written := written + MetadataAttrs(cfg.metadata, marshal);
      AddTags(cfg.tags);
      AppendAssoc(a0, written, TagAttrs(cfg.tags));
      written := written + TagAttrs(cfg.tags);
      var model := if cfg.model != "" then [A.WithModelName(cfg.model)] else [];
      otelSpan.SetAttributes(model);
      AppendAssoc(a0, written, model);
      written := written + model;
      var provider := if cfg.provider != "" then [A.WithLLMProvider(cfg.provider)] else [];
      otelSpan.SetAttributes(provider);
      AppendAssoc(a0, written, provider);
      written := written + provider;
      otelSpan.SetAttributes(UsageAttrs(cfg.usage));
      AppendAssoc(a0, written, UsageAttrs(cfg.usage));
    }

    /** The tag loop of newSpan: one tag attribute per tag, in order. */
    method AddTags(tags: seq<string>)
      modifies otelSpan
      ensures otelSpan.attrs == old(otelSpan.attrs) + TagAttrs(tags)
      ensures otelSpan.events == old(otelSpan.events) && otelSpan.errors == old(otelSpan.errors)
      ensures otelSpan.ended == old(otelSpan.ended)
    {
      var i := 0;
      while i < |tags|
        invariant 0 <= i <= |tags|
        invariant otelSpan.attrs == old(otelSpan.attrs) + TagAttrs(tags[..i])
        invariant otelSpan.events == old(otelSpan.events) && otelSpan.errors == old(otelSpan.errors)
        invariant otelSpan.ended == old(otelSpan.ended)
      {
        assert TagAttrs(tags[..i + 1]) == TagAttrs(tags[..i]) + [A.Attr(A.TagsKey, A.StringValue(tags[i]))];
        AddTag(tags[i]);
        i := i + 1;
      }
      assert tags[..i] == tags;
    }

    /** ID: the OTel span ID. */
    function ID(): (id: string)
      ensures id == otelSpan.spanID
    {
      otelSpan.spanID
    }

    /** TraceID: the stored trace ID, or the OTel trace ID when none was stored. */
    function TraceID(): (id: string)
      ensures traceID != "" ==> id == traceID
      ensures traceID == "" ==> id == otelSpan.traceID
    {
      if traceID == "" then otelSpan.traceID else traceID
    }

    method SetInput(input: Value, marshal: Marshal)
      modifies otelSpan
      ensures otelSpan.attrs == old(otelSpan.attrs) + [A.WithInput(ToString(input, marshal))]
      ensures otelSpan.events == old(otelSpan.events) && otelSpan.errors == old(otelSpan.errors)
      ensures otelSpan.ended == old(otelSpan.ended)
    {
      otelSpan.SetAttributes([A.WithInput(ToString(input, marshal))]);
    }

    method SetOutput(output: Value, marshal: Marshal)
      modifies otelSpan
      ensures otelSpan.attrs == old(otelSpan.attrs) + [A.WithOutput(ToString(output, marshal))]
      ensures otelSpan.events == old(otelSpan.events) && otelSpan.errors == old(otelSpan.errors)
      ensures otelSpan.ended == old(otelSpan.ended)
    {
      otelSpan.SetAttributes([A.WithOutput(ToString(output, marshal))]);
    }

    method SetMetadata(metadata: map<string, Value>, marshal: Marshal)
      modifies otelSpan
      ensures otelSpan.attrs == old(otelSpan.attrs) + EncodedMetadata(metadata, marshal)
      ensures otelSpan.events == old(otelSpan.events) && otelSpan.errors == old(otelSpan.errors)
      ensures otelSpan.ended == old(otelSpan.ended)
    {
      var data := marshal(Object(metadata));
      if data.Some? {
        otelSpan.SetAttributes([A.WithMetadata(data.value)]);
      }
    }

    method SetModel(model: string)
      modifies otelSpan
      ensures otelSpan.attrs == old(otelSpan.attrs) + [A.WithModelName(model)]
      ensures otelSpan.events == old(otelSpan.events) && otelSpan.errors == old(otelSpan.errors)
      ensures otelSpan.ended == old(otelSpan.ended)
    {
      otelSpan.SetAttributes([A.WithModelName(model)]);
    }

    method SetProvider(provider: string)
      modifies otelSpan
      ensures otelSpan.attrs == old(otelSpan.attrs) + [A.WithLLMProvider(provider)]
      ensures otelSpan.events == old(otelSpan.events) && otelSpan.errors == old(otelSpan.errors)
      ensures otelSpan.ended == old(otelSpan.ended)
    {
      otelSpan.SetAttributes([A.WithLLMProvider(provider)]);
    }

    /** SetUsage: exactly the three token counts - prompt, completion, total. */
    method SetUsage(usage: TokenUsage)
      modifies otelSpan
      ensures otelSpan.attrs == old(otelSpan.attrs) + A.WithTokenCounts(usage.promptTokens, usage.completionTokens, usage.totalTokens)
      ensures otelSpan.events == old(otelSpan.events) && otelSpan.errors == old(otelSpan.errors)
      ensures otelSpan.ended == old(otelSpan.ended)
    {
      otelSpan.SetAttributes(A.WithTokenCounts(usage.promptTokens, usage.completionTokens, usage.totalTokens));
    }

    method AddTag(tag: string)
      modifies otelSpan
      ensures otelSpan.attrs == old(otelSpan.attrs) + [A.Attr(A.TagsKey, A.StringValue(tag))]
      ensures otelSpan.events == old(otelSpan.events) && otelSpan.errors == old(otelSpan.errors)
      ensures otelSpan.ended == old(otelSpan.ended)
    {
      otelSpan.SetAttributes([A.Attr(A.TagsKey, A.StringValue(tag))]);
    }

    /** StartSpan: a child with this span's trace ID and this span as its parent, stored in the span slot. */
    method StartSpan(ctx: Context, name: string, cfg: SpanOptions, child: OtelSpan, now: Time, marshal: Marshal)
      returns (next: Context, s: SpanWrapper)
      modifies child
      ensures fresh(s) && s.otelSpan == child && s.name == name && s.spanType == cfg.spanType
      ensures s.traceID == TraceID() && s.parentSpanID == ID() && s.startTime == now && s.endTime == None
      ensures child.attrs == old(child.attrs) + SpanStartAttrs(cfg, marshal)
      ensures next == ContextWithSpan(ctx, s)
    {
      s := new SpanWrapper(name, child, TraceID(), ID(), cfg, now, marshal);
      next := ContextWithSpan(ctx, s);
    }

    /** AddFeedbackScore: exactly one "feedback" event with the feedback attributes. */
    method AddFeedbackScore(name: string, score: Float64, cfg: FeedbackOptions)
      modifies otelSpan
      ensures otelSpan.events == old(otelSpan.events) + [Event(FeedbackEvent, FeedbackAttrs(name, score, cfg))]
      ensures otelSpan.attrs == old(otelSpan.attrs) && otelSpan.errors == old(otelSpan.errors)
      ensures otelSpan.ended == old(otelSpan.ended)
    {
      otelSpan.AddEvent(FeedbackEvent, FeedbackAttrs(name, score, cfg));
    }

    /** End: the provided output and metadata, the error if any, then the span ends at `now`. */
    method End(opts: EndOptions, now: Time, marshal: Marshal)
      modifies this, otelSpan
      ensures otelSpan.attrs == old(otelSpan.attrs) + EndAttrs(opts, marshal)
      ensures otelSpan.errors == old(otelSpan.errors) + (if opts.err.Some? then [opts.err.value] else [])
      ensures otelSpan.events == old(otelSpan.events) && otelSpan.ended
      ensures endTime == Some(now)
      ensures EndTime() == Some(now) && forall later :: Duration(later) == now - startTime
    {
      if !opts.output.Nil? {
        otelSpan.SetAttributes([A.WithOutput(ToString(opts.output, marshal))]);
      }
      if opts.metadata.Some? {
        var data := marshal(Object(opts.metadata.value));
        if data.Some? {
          otelSpan.SetAttributes([A.WithMetadata(data.value)]);
        }
      }
      if opts.err.Some? {
        otelSpan.RecordError(opts.err.value);
      }
      otelSpan.End();
      endTime := Some(now);
    }

    /** EndTime: None until End. */
    function EndTime(): Option<Time>
      reads this
    {
      endTime
    }

    /** Duration: end minus start once ended, else the time since the start. */
    function Duration(now: Time): (d: Observe.Duration)
      reads this
      ensures endTime.Some? ==> d == endTime.value - startTime
      ensures endTime.None? ==> d == now - startTime
    {
      if endTime.Some? then endTime.value - startTime else now - startTime
    }
  }
}
