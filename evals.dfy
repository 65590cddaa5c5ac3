/**
 * evals/evaluator.go: the Phoenix evaluator - running metrics, recording
 * non-errored scores as span annotations, and feedback annotations with the
 * annotator-kind rules.
 */
module Evals {
  import opened Wrappers
  import opened Errors
  import Api
  import opened Observe

  // ---- annotator kinds -------------------------------------------------

  /** parseSpanAnnotatorKind and parseTraceAnnotatorKind: "llm"/"LLM", "code"/"CODE", anything else HUMAN. */
  function ParseAnnotatorKind(source: string): (k: Api.AnnotatorKind)
    ensures source == "llm" || source == "LLM" ==> k == Api.KindLLM
    ensures source == "code" || source == "CODE" ==> k == Api.KindCODE
    ensures source !in {"llm", "LLM", "code", "CODE"} ==> k == Api.KindHUMAN
  {
    if source == "llm" || source == "LLM" then Api.KindLLM
    else if source == "code" || source == "CODE" then Api.KindCODE
    else Api.KindHUMAN
  }

  /** The string stored under `key` of a metadata map, if the metadata is a map and that entry a string. */
  function MetadataString(metadata: Value, key: string): (r: Option<string>)
    ensures r.Some? <==> metadata.Object? && key in metadata.fields && metadata.fields[key].Str?
    ensures r.Some? ==> r.value == metadata.fields[key].str
  {
    if metadata.Object? && key in metadata.fields && metadata.fields[key].Str? then Some(metadata.fields[key].str) else None
  }

  /**
   * inferAnnotatorKind: the metadata's "kind" string when it is one of
   * llm/LLM/code/CODE/human/HUMAN, CODE otherwise (no map, no "kind", not a
   * string, or another word).
   */
  function InferAnnotatorKind(score: MetricScore): (k: Api.AnnotatorKind)
    ensures var kind := MetadataString(score.metadata, "kind");
      (kind.Some? && kind.value in {"llm", "LLM"} ==> k == Api.KindLLM) &&
      (kind.Some? && kind.value in {"code", "CODE"} ==> k == Api.KindCODE) &&
      (kind.Some? && kind.value in {"human", "HUMAN"} ==> k == Api.KindHUMAN) &&
      (!(kind.Some? && kind.value in {"llm", "LLM", "human", "HUMAN"}) ==> k == Api.KindCODE)
  {
    match MetadataString(score.metadata, "kind")
    case Some(kind) =>
      if kind == "llm" || kind == "LLM" then Api.KindLLM
      else if kind == "code" || kind == "CODE" then Api.KindCODE
      else if kind == "human" || kind == "HUMAN" then Api.KindHUMAN
      else Api.KindCODE
    case None => Api.KindCODE
  }

  /** The inferred default differs from the parsed default: an unknown word is CODE here and HUMAN when parsed. */
  lemma DefaultsDiffer(score: MetricScore)
    requires MetadataString(score.metadata, "kind") == Some("unknown")
    ensures InferAnnotatorKind(score) == Api.KindCODE && ParseAnnotatorKind("unknown") == Api.KindHUMAN
  {
  }

  // ---- results ---------------------------------------------------------

  /** buildAnnotationResult: the score always, the explanation only for a non-empty reason, never a label. */
  function BuildAnnotationResult(score: Float64, reason: string): (r: Api.AnnotationResult)
    ensures r.score == Api.OptNil(true, false, score)
    ensures r.explanation.isSet <==> reason != ""
    ensures r.explanation.isSet ==> r.explanation.value == reason && !r.explanation.isNull
    ensures !r.explanation.isSet ==> r.explanation == Api.NoNilString
    ensures r.labelText == Api.NoNilString
  {
    Api.AnnotationResult(Api.NoNilString, Api.OptNil(true, false, score),
      if reason != "" then Api.OptNil(true, false, reason) else Api.NoNilString)
  }

  /** The annotation recordScoresToPhoenix builds for one score: BuildAnnotationResult plus the metadata label. */
  function RecordedAnnotation(spanID: string, score: MetricScore): (a: Api.SpanAnnotationData)
    ensures a.spanID == spanID && a.name == score.name && a.annotatorKind == InferAnnotatorKind(score)
    ensures a.result.isSet
    ensures a.result.value.score == BuildAnnotationResult(score.score, score.reason).score
    ensures a.result.value.explanation == BuildAnnotationResult(score.score, score.reason).explanation
    ensures var l := MetadataString(score.metadata, "label");
      a.result.value.labelText == (if l.Some? then Api.OptNil(true, false, l.value) else Api.NoNilString)
  {
    var l := MetadataString(score.metadata, "label");
    var result := BuildAnnotationResult(score.score, score.reason);
    Api.SpanAnnotationData(spanID, score.name, InferAnnotatorKind(score),
      Api.Opt(true, result.(labelText := if l.Some? then Api.OptNil(true, false, l.value) else Api.NoNilString)))
  }

  /** The annotations of the non-errored scores, in order. */
  function Recorded(spanID: string, scores: seq<MetricScore>): seq<Api.SpanAnnotationData>
    decreases |scores|
  {
    if |scores| == 0 then []
    else
      var last := scores[|scores| - 1];
      Recorded(spanID, scores[..|scores| - 1]) + (if last.error == "" then [RecordedAnnotation(spanID, last)] else [])
  }

  /** The scores that are kept: those without an error. */
  function Kept(scores: seq<MetricScore>): (k: seq<MetricScore>)
    ensures forall s :: s in k ==> s in scores && s.error == ""
    decreases |scores|
  {
    if |scores| == 0 then []
    else
      var last := scores[|scores| - 1];
      Kept(scores[..|scores| - 1]) + (if last.error == "" then [last] else [])
  }

  /** Recorded is the annotation of every kept score, one for one and in order. */
  lemma {:induction false} RecordedIsKept(spanID: string, scores: seq<MetricScore>)
    ensures |Recorded(spanID, scores)| == |Kept(scores)|
    ensures forall i :: 0 <= i < |Kept(scores)| ==> Recorded(spanID, scores)[i] == RecordedAnnotation(spanID, Kept(scores)[i])
    decreases |scores|
  {
    if |scores| > 0 {
      RecordedIsKept(spanID, scores[..|scores| - 1]);
    }
  }

  /** No annotation exists exactly when every score has an error. */
  lemma {:induction false} RecordedEmptyIffAllErrored(spanID: string, scores: seq<MetricScore>)
    ensures |Recorded(spanID, scores)| == 0 <==> forall i :: 0 <= i < |scores| ==> scores[i].error != ""
    decreases |scores|
  {
    if |scores| > 0 {
      var front, last := scores[..|scores| - 1], scores[|scores| - 1];
      RecordedEmptyIffAllErrored(spanID, front);
      assert Recorded(spanID, scores) == Recorded(spanID, front) + (if last.error == "" then [RecordedAnnotation(spanID, last)] else []);
      if forall i :: 0 <= i < |scores| ==> scores[i].error != "" {
        forall i | 0 <= i < |front| ensures front[i].error != "" {
          assert front[i] == scores[i];
        }
      } else {
        var j :| 0 <= j < |scores| && scores[j].error == "";
        if j < |front| {
          assert front[j] == scores[j];
        }
      }
    }
  }

  /** Recording a concatenation records each part, so the order of the scores is kept. */
  lemma {:induction false} RecordedAppend(spanID: string, a: seq<MetricScore>, b: seq<MetricScore>)
    ensures Recorded(spanID, a + b) == Recorded(spanID, a) + Recorded(spanID, b)
    decreases |b|
  {
    if |b| == 0 {
      assert a + b == a;
    } else {
      assert (a + b)[..|a + b| - 1] == a + b[..|b| - 1];
      RecordedAppend(spanID, a, b[..|b| - 1]);
    }
  }

  /** The label lookup's type assertion: a non-nil metadata of a kept score must be a map, or the code panics. */
  predicate MetadataReadable(scores: seq<MetricScore>) {
    forall i :: 0 <= i < |scores| && scores[i].error == "" ==> scores[i].metadata.Nil? || scores[i].metadata.Object?
  }

  /**
   * recordScoresToPhoenix: one annotation per non-errored score; no call
   * (and no error) when none remain, otherwise the call's error `sendErr`.
   */
  method RecordScoresToPhoenix(spanID: string, scores: seq<MetricScore>, sendErr: Option<Error>)
    returns (req: Option<Api.AnnotateSpansRequestBody>, err: Option<Error>)
    requires MetadataReadable(scores)
    ensures req.None? <==> |Recorded(spanID, scores)| == 0
    ensures req.Some? ==> req.value.data == Recorded(spanID, scores) && err == sendErr
    ensures req.None? ==> err.None?
  {
    var annotations: seq<Api.SpanAnnotationData> := [];
    var i := 0;
    while i < |scores|
      invariant 0 <= i <= |scores|
      invariant annotations == Recorded(spanID, scores[..i])
    {
      assert scores[..i + 1][..i] == scores[..i];
      var score := scores[i];
      if score.error == "" {
        annotations := annotations + [RecordedAnnotation(spanID, score)];
      }
      i := i + 1;
    }
    assert scores[..i] == scores;
    if |annotations| == 0 {
      return None, None;
    }
    req := Some(Api.AnnotateSpansRequestBody(annotations));
    err := sendErr;
  }

  // ---- metrics ---------------------------------------------------------

  /** One metric's score: its own, or on failure {Name: metric name, Error: the error text}. */
  function ScoreFor(metric: Metric, input: EvalInput): (s: MetricScore)
    ensures metric.evaluate(input).Success? ==> s == metric.evaluate(input).value
    ensures metric.evaluate(input).Failure? ==> s == ErrorScore(metric.name, metric.evaluate(input).error)
  {
    match metric.evaluate(input)
    case Success(score) => score
    case Failure(e) => ErrorScore(metric.name, e)
  }

  /** The metric loop of Evaluate: one score per metric, in metric order; a failure does not stop the loop. */
  method RunMetrics(input: EvalInput, metrics: seq<Metric>) returns (scores: seq<MetricScore>)
    ensures |scores| == |metrics|
    ensures forall i :: 0 <= i < |metrics| ==> scores[i] == ScoreFor(metrics[i], input)
  {
    scores := [];
    var i := 0;
    while i < |metrics|
      invariant 0 <= i <= |metrics|
      invariant |scores| == i
      invariant forall j :: 0 <= j < i ==> scores[j] == ScoreFor(metrics[j], input)
    {
      var outcome := metrics[i].evaluate(input);
      var score;
      if outcome.Failure? {
        score := ErrorScore(metrics[i].name, outcome.error);
      } else {
        score := outcome.value;
      }
      scores := scores + [score];
      i := i + 1;
    }
  }

  // ---- the evaluator ---------------------------------------------------

  datatype EvaluatorOption = WithRecordResults(record: bool)

  /** The recordResults flag the options end with: the last WithRecordResults, else true. */
  function RecordResultsAfter(opts: seq<EvaluatorOption>): (b: bool)
    ensures |opts| == 0 ==> b
    ensures |opts| > 0 ==> b == opts[|opts| - 1].record
  {
    if |opts| == 0 then true else opts[|opts| - 1].record
  }

  /** The "record_error" key Evaluate writes when recording fails. */
  const RecordErrorKey := "record_error"

  /** Evaluator (the client handle it uses for the annotation call is not part of this model). */
  class Evaluator {
    var recordResults: bool

    /** NewEvaluator: records results. */
    constructor ()
      ensures recordResults
    {
      recordResults := true;
    }

    /** NewEvaluatorWithOptions: NewEvaluator, then each option. */
    constructor WithOptions(opts: seq<EvaluatorOption>)
      ensures recordResults == RecordResultsAfter(opts)
    {
      recordResults := true;
      new;
      var i := 0;
      while i < |opts|
        invariant 0 <= i <= |opts|
        invariant recordResults == RecordResultsAfter(opts[..i])
      {
        assert opts[..i + 1][|opts[..i + 1]| - 1] == opts[i];
        recordResults := opts[i].record;
        i := i + 1;
      }
      assert opts[..i] == opts;
    }

    /**
     * Evaluate: the scores of every metric; when recording is on and the
     * input names a span, the kept scores are sent, and a failure of that
     * call (`sendErr`) only lands in Metadata["record_error"].  It never
     * returns an error.
     */
    method Evaluate(input: EvalInput, metrics: seq<Metric>, elapsed: Duration, sendErr: Option<Error>)
      returns (result: EvalResult, req: Option<Api.AnnotateSpansRequestBody>, err: Option<Error>)
      requires var scores := seq(|metrics|, i requires 0 <= i < |metrics| => ScoreFor(metrics[i], input));
        recordResults && input.spanID != "" ==> MetadataReadable(scores)
      ensures err.None?
      ensures |result.scores| == |metrics| && result.duration == elapsed
      ensures forall i :: 0 <= i < |metrics| ==> result.scores[i] == ScoreFor(metrics[i], input)
      ensures !(recordResults && input.spanID != "") ==> req.None? && result.metadata == map[]
      ensures recordResults && input.spanID != "" ==>
        (req.None? <==> |Recorded(input.spanID, result.scores)| == 0) &&
        (req.Some? ==> req.value.data == Recorded(input.spanID, result.scores))
      ensures result.metadata == (if req.Some? && sendErr.Some? then map[RecordErrorKey := Str(ErrorText(sendErr.value))] else map[])
    {
      var scores := RunMetrics(input, metrics);
      assert scores == seq(|metrics|, i requires 0 <= i < |metrics| => ScoreFor(metrics[i], input));
      result := EvalResult(scores, elapsed, map[]);
      req, err := None, None;
      if recordResults && input.spanID != "" {
        var recErr;
        req, recErr := RecordScoresToPhoenix(input.spanID, scores, sendErr);
        if recErr.Some? {
          result := result.(metadata := map[RecordErrorKey := Str(ErrorText(recErr.value))]);
        }
      }
    }
  }

  // ---- feedback --------------------------------------------------------

  /** The request AddFeedbackScore sends, if any. */
  datatype FeedbackRequest =
    | SpanFeedback(spans: Api.AnnotateSpansRequestBody)
    | TraceFeedback(traces: Api.AnnotateTracesRequestBody)
    | NoFeedback

  /**
   * addSpanAnnotation / addTraceAnnotation, chosen by AddFeedbackScore: a
   * span ID wins over a trace ID, and with neither nothing is sent.
   */
  function FeedbackRequestFor(opts: FeedbackScoreOpts): (r: FeedbackRequest)
    ensures opts.spanID != "" ==> (r.SpanFeedback? && r.spans.data ==
      [Api.SpanAnnotationData(opts.spanID, opts.name, ParseAnnotatorKind(opts.source), Api.Opt(true, BuildAnnotationResult(opts.score, opts.reason)))])
    ensures opts.spanID == "" && opts.traceID != "" ==> (r.TraceFeedback? && r.traces.data ==
      [Api.TraceAnnotationData(opts.traceID, opts.name, ParseAnnotatorKind(opts.source), Api.Opt(true, BuildAnnotationResult(opts.score, opts.reason)))])
    ensures opts.spanID == "" && opts.traceID == "" ==> r.NoFeedback?
  {
    var result := Api.Opt(true, BuildAnnotationResult(opts.score, opts.reason));
    if opts.spanID != "" then
      SpanFeedback(Api.AnnotateSpansRequestBody([Api.SpanAnnotationData(opts.spanID, opts.name, ParseAnnotatorKind(opts.source), result)]))
    else if opts.traceID != "" then
      TraceFeedback(Api.AnnotateTracesRequestBody([Api.TraceAnnotationData(opts.traceID, opts.name, ParseAnnotatorKind(opts.source), result)]))
    else NoFeedback
  }

  /** AddFeedbackScore: the request sent and the call's error; nil when no target is named. */
  method AddFeedbackScore(opts: FeedbackScoreOpts, sendErr: Option<Error>) returns (req: FeedbackRequest, err: Option<Error>)
    ensures req == FeedbackRequestFor(opts)
    ensures err == (if req.NoFeedback? then None else sendErr)
  {
    req := FeedbackRequestFor(opts);
    err := if req.NoFeedback? then None else sendErr;
  }
}
