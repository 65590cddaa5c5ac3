/**
 * otel/attributes.go: the OpenInference span kinds and attribute keys, and the
 * constructors that pair a fixed key with a value.
 */
module OtelAttributes {
  import opened Wrappers

  /** float64 attribute values are carried through, never computed on. */
  type Float64 = real

  /** The attribute value kinds the model writes (attribute.Value). */
  datatype AttrValue =
    | StringValue(str: string)
    | IntValue(num: int)
    | FloatValue(real64: Float64)
    | BoolValue(flag: bool)
    | StringSliceValue(strs: seq<string>)

  /** attribute.KeyValue */
  datatype Attr = Attr(key: string, value: AttrValue)

  // Span kinds.
  const SpanKindLLM := "LLM"
  const SpanKindChain := "CHAIN"
  const SpanKindTool := "TOOL"
  const SpanKindAgent := "AGENT"
  const SpanKindRetriever := "RETRIEVER"
  const SpanKindEmbedding := "EMBEDDING"
  const SpanKindReranker := "RERANKER"
  const SpanKindGuardrail := "GUARDRAIL"

  // Attribute keys.
  const OpenInferenceSpanKind := "openinference.span.kind"
  const InputValue := "input.value"
  const InputMime := "input.mime_type"
  const OutputValue := "output.value"
  const OutputMime := "output.mime_type"
  const LLMModelName := "llm.model_name"
  const LLMProvider := "llm.provider"
  const LLMInvocationParams := "llm.invocation_parameters"
  const LLMTokenCountPrompt := "llm.token_count.prompt"
  const LLMTokenCountCompletion := "llm.token_count.completion"
  const LLMTokenCountTotal := "llm.token_count.total"
  const LLMInputMessages := "llm.input_messages"
  const LLMOutputMessages := "llm.output_messages"
  const ToolName := "tool.name"
  const ToolDescription := "tool.description"
  const ToolParameters := "tool.parameters"
  const RetrievalDocuments := "retrieval.documents"
  const EmbeddingModelName := "embedding.model_name"
  const EmbeddingEmbeddings := "embedding.embeddings"
  const EmbeddingText := "embedding.text"
  const MetadataKey := "metadata"
  const TagsKey := "tag.tags"
  const SessionID := "session.id"
  const UserID := "user.id"

  /** The value recorded last under key, if any: how a reader of the list sees it. */
  function Lookup(attrs: seq<Attr>, key: string): (v: Option<AttrValue>)
    ensures v.Some? <==> exists i :: 0 <= i < |attrs| && attrs[i].key == key
    ensures v.Some? ==> exists i :: (0 <= i < |attrs| && attrs[i].key == key && v.value == attrs[i].value &&
                                     forall j :: i < j < |attrs| ==> attrs[j].key != key)
  {
    if |attrs| == 0 then None
    else if attrs[|attrs| - 1].key == key then Some(attrs[|attrs| - 1].value)
    else
      var v := Lookup(attrs[..|attrs| - 1], key);
      assert forall i :: 0 <= i < |attrs| - 1 ==> attrs[..|attrs| - 1][i] == attrs[i];
      v
  }

  /** The keys of an attribute list. */
  function Keys(attrs: seq<Attr>): seq<string> {
    seq(|attrs|, i requires 0 <= i < |attrs| => attrs[i].key)
  }

  predicate Distinct(xs: seq<string>) {
    forall i, j :: 0 <= i < j < |xs| ==> xs[i] != xs[j]
  }

  function WithSpanKind(kind: string): (a: Attr)
    ensures a.key == OpenInferenceSpanKind && a.value == StringValue(kind)
  {
    Attr(OpenInferenceSpanKind, StringValue(kind))
  }

  function WithInput(input: string): (a: Attr)
    ensures a.key == InputValue && a.value == StringValue(input)
  {
    Attr(InputValue, StringValue(input))
  }

  function WithOutput(output: string): (a: Attr)
    ensures a.key == OutputValue && a.value == StringValue(output)
  {
    Attr(OutputValue, StringValue(output))
  }

  function WithModelName(model: string): (a: Attr)
    ensures a.key == LLMModelName && a.value == StringValue(model)
  {
    Attr(LLMModelName, StringValue(model))
  }

  function WithLLMProvider(provider: string): (a: Attr)
    ensures a.key == LLMProvider && a.value == StringValue(provider)
  {
    Attr(LLMProvider, StringValue(provider))
  }

  function WithToolName(name: string): (a: Attr)
    ensures a.key == ToolName && a.value == StringValue(name)
  {
    Attr(ToolName, StringValue(name))
  }

  function WithSessionID(id: string): (a: Attr)
    ensures a.key == SessionID && a.value == StringValue(id)
  {
    Attr(SessionID, StringValue(id))
  }

  function WithUserID(id: string): (a: Attr)
    ensures a.key == UserID && a.value == StringValue(id)
  {
    Attr(UserID, StringValue(id))
  }

  function WithMetadata(metadata: string): (a: Attr)
    ensures a.key == MetadataKey && a.value == StringValue(metadata)
  {
    Attr(MetadataKey, StringValue(metadata))
  }

  /** Prompt, completion and total token counts, in that order. */
  function WithTokenCounts(prompt: int, completion: int, total: int): (attrs: seq<Attr>)
    ensures Keys(attrs) == [LLMTokenCountPrompt, LLMTokenCountCompletion, LLMTokenCountTotal]
    ensures attrs[0].value == IntValue(prompt) && attrs[1].value == IntValue(completion)
    ensures attrs[2].value == IntValue(total)
  {
    [Attr(LLMTokenCountPrompt, IntValue(prompt)),
     Attr(LLMTokenCountCompletion, IntValue(completion)),
     Attr(LLMTokenCountTotal, IntValue(total))]
  }

  // ---- Go's 64-bit int ------------------------------------------------------

  const TwoTo63: int := 0x8000_0000_0000_0000
  const TwoTo64: int := 0x1_0000_0000_0000_0000

  /** The range of Go's `int` on a 64-bit platform. */
  predicate IsInt64(x: int) {
    -TwoTo63 <= x < TwoTo63
  }

  /**
   * Go's `a + b` on `int`: the exact sum when it fits, otherwise the sum
   * wrapped around by 2^64 into the int64 range.
   */
  function AddInt64(a: int, b: int): (r: int)
    ensures IsInt64(r)
    ensures IsInt64(a + b) ==> r == a + b
    ensures a + b >= TwoTo63 && a + b < TwoTo63 + TwoTo64 ==> r == a + b - TwoTo64
    ensures a + b < -TwoTo63 && a + b >= -TwoTo63 - TwoTo64 ==> r == a + b + TwoTo64
  {
    (a + b + TwoTo63) % TwoTo64 - TwoTo63
  }

  /** The largest int plus one is the smallest: the total token count can come out negative. */
  lemma AddInt64Overflows()
    ensures AddInt64(TwoTo63 - 1, 1) == -TwoTo63
    ensures AddInt64(TwoTo63 / 2, TwoTo63 / 2) < 0
  {
  }

  /** An LLM span: kind LLM, model, provider, and the token counts with total = prompt + completion in int64. */
  function LLMSpanAttributes(model: string, provider: string, promptTokens: int, completionTokens: int): (attrs: seq<Attr>)
    ensures |attrs| == 6 && attrs[0] == WithSpanKind(SpanKindLLM)
    ensures Distinct(Keys(attrs))
    ensures attrs[1] == WithModelName(model) && attrs[2] == WithLLMProvider(provider)
    ensures attrs[3..] == WithTokenCounts(promptTokens, completionTokens, AddInt64(promptTokens, completionTokens))
  {
    [WithSpanKind(SpanKindLLM), WithModelName(model), WithLLMProvider(provider),
     Attr(LLMTokenCountPrompt, IntValue(promptTokens)),
     Attr(LLMTokenCountCompletion, IntValue(completionTokens)),
     Attr(LLMTokenCountTotal, IntValue(AddInt64(promptTokens, completionTokens)))]
  }

  /** A tool span: kind TOOL and the name, then tool.description only when one is given. */
  function ToolSpanAttributes(name: string, description: string): (attrs: seq<Attr>)
    ensures |attrs| >= 2 && attrs[..2] == [WithSpanKind(SpanKindTool), WithToolName(name)]
    ensures description == "" ==> |attrs| == 2
    ensures description != "" ==> |attrs| == 3 && attrs[2] == Attr(ToolDescription, StringValue(description))
    ensures Distinct(Keys(attrs))
  {
    var attrs := [WithSpanKind(SpanKindTool), WithToolName(name)];
    if description != "" then attrs + [Attr(ToolDescription, StringValue(description))] else attrs
  }

  function RetrieverSpanAttributes(): (attrs: seq<Attr>)
    ensures attrs == [WithSpanKind(SpanKindRetriever)]
  {
    [WithSpanKind(SpanKindRetriever)]
  }

  function ChainSpanAttributes(): (attrs: seq<Attr>)
    ensures attrs == [WithSpanKind(SpanKindChain)]
  {
    [WithSpanKind(SpanKindChain)]
  }

  function AgentSpanAttributes(): (attrs: seq<Attr>)
    ensures attrs == [WithSpanKind(SpanKindAgent)]
  {
    [WithSpanKind(SpanKindAgent)]
  }

  /** In a list with distinct keys, reading a key back gives the value written under it. */
  lemma {:induction false} ReadBack(attrs: seq<Attr>, i: nat)
    requires Distinct(Keys(attrs)) && i < |attrs|
    ensures Lookup(attrs, attrs[i].key) == Some(attrs[i].value)
    decreases |attrs|
  {
    var n := |attrs| - 1;
    if i < n {
      assert attrs[n].key != attrs[i].key by { assert Keys(attrs)[i] != Keys(attrs)[n]; }
      var init := attrs[..n];
      assert Keys(init) == Keys(attrs)[..n];
      ReadBack(init, i);
    }
  }

  /** Read back, an LLM span reports its model, provider and the int64 sum as total. */
  lemma LLMSpanReadBack(model: string, provider: string, promptTokens: int, completionTokens: int)
    ensures var attrs := LLMSpanAttributes(model, provider, promptTokens, completionTokens);
      Lookup(attrs, OpenInferenceSpanKind) == Some(StringValue(SpanKindLLM)) &&
      Lookup(attrs, LLMModelName) == Some(StringValue(model)) &&
      Lookup(attrs, LLMProvider) == Some(StringValue(provider)) &&
      Lookup(attrs, LLMTokenCountPrompt) == Some(IntValue(promptTokens)) &&
      Lookup(attrs, LLMTokenCountCompletion) == Some(IntValue(completionTokens)) &&
      Lookup(attrs, LLMTokenCountTotal) == Some(IntValue(AddInt64(promptTokens, completionTokens)))
  {
    var attrs := LLMSpanAttributes(model, provider, promptTokens, completionTokens);
    ReadBack(attrs, 0);
    ReadBack(attrs, 1);
    ReadBack(attrs, 2);
    ReadBack(attrs, 3);
    ReadBack(attrs, 4);
    ReadBack(attrs, 5);
  }

  /** The eight span kinds. */
  const SpanKinds := [SpanKindLLM, SpanKindChain, SpanKindTool, SpanKindAgent,
                      SpanKindRetriever, SpanKindEmbedding, SpanKindReranker, SpanKindGuardrail]

  /** The span kinds are pairwise distinct, so a kind names exactly one operation type. */
  lemma SpanKindsDistinct()
    ensures Distinct(SpanKinds)
  {
    assert SpanKindLLM[0] == 'L' && SpanKindChain[0] == 'C' && SpanKindTool[0] == 'T';
    assert SpanKindAgent[0] == 'A' && SpanKindRetriever[1] == 'E' && SpanKindEmbedding[0] == 'E';
    assert SpanKindReranker[1] == 'E' && SpanKindGuardrail[0] == 'G';
  }
}
