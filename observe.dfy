/**
 * The types of the omniobserve `llmops` package that the adapter and the
 * evaluator exchange.  That package is not part of this model: each record
 * has the fields the adapter reads or writes, the option records stand for
 * the results of its Apply*Options helpers, and its enumerations are
 * datatypes because only their identities matter here.
 */
module Observe {
  import opened Wrappers
  import Errors
  import ClientOptions

  type Float64 = real
  type Time = int
  type Duration = int

  /** A Go `any` value as the adapter inspects it. */
  datatype Value =
    | Nil
    | Str(str: string)
    | Bytes(bytes: seq<bv8>)
    | Num(num: real)
    | Boolean(flag: bool)
    | Object(fields: map<string, Value>)
    | List(items: seq<Value>)

  /**
   * llmops.SpanType; NoType is the unset (empty) type.  OtherType stands for
   * a string none of the named constants spell: a value that spells one of
   * them is that constructor, not OtherType.
   */
  datatype SpanType =
    | NoType
    | SpanTypeLLM
    | SpanTypeTool
    | SpanTypeAgent
    | SpanTypeChain
    | SpanTypeRetrieval
    | SpanTypeGuardrail
    | SpanTypeGeneral
    | OtherType(name: string)

  /** llmops.AnnotatorKind */
  datatype AnnotatorKind = AnnotatorKindHuman | AnnotatorKindLLM | AnnotatorKindCode | OtherKind(name: string)

  /** The llmops sentinel errors the adapter returns. */
  const ErrNoActiveTrace := Errors.Llmops("ErrNoActiveTrace")
  const ErrDatasetNotFound := Errors.Llmops("ErrDatasetNotFound")

  datatype TokenUsage = TokenUsage(promptTokens: int, completionTokens: int, totalTokens: int)

  /** llmops.ClientConfig after ApplyClientOptions; `httpClient` is None for a nil HTTPClient. */
  datatype ClientConfig = ClientConfig(
    endpoint: string, workspace: string, apiKey: string, projectName: string,
    httpClient: Option<ClientOptions.HttpClient>, httpTimeout: Duration)

  /** llmops.TraceOptions after ApplyTraceOptions. */
  datatype TraceOptions = TraceOptions(input: Value, metadata: Option<map<string, Value>>, tags: seq<string>, threadID: string)

  /** llmops.SpanOptions after ApplySpanOptions. */
  datatype SpanOptions = SpanOptions(
    spanType: SpanType, input: Value, metadata: Option<map<string, Value>>, tags: seq<string>,
    model: string, provider: string, usage: Option<TokenUsage>)

  /** llmops.FeedbackOptions */
  datatype FeedbackOptions = FeedbackOptions(reason: string, category: string, source: string)
  const NoFeedbackOptions := FeedbackOptions("", "", "")

  /** llmops.EndOptions; `err` is the text of the recorded error. */
  datatype EndOptions = EndOptions(output: Value, metadata: Option<map<string, Value>>, err: Option<string>)

  /** llmops.FeedbackScoreOpts */
  datatype FeedbackScoreOpts = FeedbackScoreOpts(
    spanID: string, traceID: string, name: string, score: Float64, reason: string, category: string, source: string)

  /** llmops.EvalInput: the fields the evaluators read. */
  datatype EvalInput = EvalInput(input: Value, output: Value, expected: Value, context: seq<string>, spanID: string, traceID: string)

  /** llmops.MetricScore */
  datatype MetricScore = MetricScore(name: string, score: Float64, reason: string, metadata: Value, error: string)

  /** A MetricScore whose only filled fields are the name and the error text. */
  function ErrorScore(name: string, error: string): MetricScore {
    MetricScore(name, 0.0, "", Nil, error)
  }

  /** llmops.Metric: a name, and the outcome of Evaluate on each input (an error as its text). */
  datatype Metric = Metric(name: string, evaluate: EvalInput -> Result<MetricScore, string>)

  /** llmops.EvalResult */
  datatype EvalResult = EvalResult(scores: seq<MetricScore>, duration: Duration, metadata: map<string, Value>)

  /** llmops.PromptOptions */
  datatype PromptOptions = PromptOptions(description: string, modelName: string, modelProvider: string)

  datatype Prompt = Prompt(
    id: string, name: string, version: string, template: string, description: string,
    modelName: string, modelProvider: string)

  datatype Dataset = Dataset(id: string, name: string, description: string, itemCount: int, createdAt: Time, updatedAt: Time)

  datatype DatasetItem = DatasetItem(input: Value, expected: Value, metadata: map<string, Value>)

  datatype Project = Project(id: string, name: string, description: string, createdAt: Time, updatedAt: Time)

  datatype Annotation = Annotation(
    id: string, spanID: string, traceID: string, name: string, score: Float64,
    labelText: string, explanation: string, source: AnnotatorKind, createdAt: Time, updatedAt: Time)

  datatype ListAnnotationsOptions = ListAnnotationsOptions(spanIDs: seq<string>, traceIDs: seq<string>)
}
