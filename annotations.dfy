/**
 * annotation.go: span and trace annotations - request building, the
 * annotator-kind mappings, the options, and the conversions of responses.
 */
module Annotations {
  import opened Wrappers
  import opened Errors
  import Api
  import opened Listing

  type Float64 = Api.Float64

  /** The SDK's AnnotatorKind. */
  type AnnotatorKind = string
  const Human: AnnotatorKind := "HUMAN"
  const LLM: AnnotatorKind := "LLM"
  const Code: AnnotatorKind := "CODE"

  /** Annotation: exactly one of SpanID and TraceID is filled by a conversion. */
  datatype Annotation = Annotation(
    id: string, spanID: string, traceID: string, name: string,
    score: Float64, labelText: string, explanation: string, source: AnnotatorKind,
    createdAt: Api.Time, updatedAt: Api.Time)

  // ---- options ---------------------------------------------------------

  datatype AnnotationSettings = AnnotationSettings(explanation: string, labelText: string, source: AnnotatorKind)

  /** `&annotationOptions{}`: all fields empty. */
  const NoAnnotationSettings := AnnotationSettings("", "", "")

  datatype AnnotationOption =
    | WithAnnotationExplanation(explanation: string)
    | WithAnnotationLabel(labelText: string)
    | WithAnnotationSource(source: AnnotatorKind)

  function AnnotationApplied(s: AnnotationSettings, opt: AnnotationOption): (r: AnnotationSettings)
    ensures opt.WithAnnotationExplanation? ==> r == s.(explanation := opt.explanation)
    ensures opt.WithAnnotationLabel? ==> r == s.(labelText := opt.labelText)
    ensures opt.WithAnnotationSource? ==> r == s.(source := opt.source)
  {
    match opt
    case WithAnnotationExplanation(e) => s.(explanation := e)
    case WithAnnotationLabel(l) => s.(labelText := l)
    case WithAnnotationSource(k) => s.(source := k)
  }

  function AnnotationAppliedAll(s: AnnotationSettings, opts: seq<AnnotationOption>): AnnotationSettings
    decreases |opts|
  {
    if |opts| == 0 then s else AnnotationApplied(AnnotationAppliedAll(s, opts[..|opts| - 1]), opts[|opts| - 1])
  }

  /** annotationOptions */
  class AnnotationOptions {
    var explanation: string
    var labelText: string
    var source: AnnotatorKind

    function Value(): AnnotationSettings
      reads this
    {
      AnnotationSettings(explanation, labelText, source)
    }

    constructor ()
      ensures Value() == NoAnnotationSettings
    {
      explanation, labelText, source := "", "", "";
    }

    method ApplyAll(opts: seq<AnnotationOption>)
      modifies this
      ensures Value() == AnnotationAppliedAll(old(Value()), opts)
    {
      var i := 0;
      while i < |opts|
        invariant 0 <= i <= |opts|
        invariant Value() == AnnotationAppliedAll(old(Value()), opts[..i])
      {
        assert opts[..i + 1][..i] == opts[..i];
        match opts[i] {
          case WithAnnotationExplanation(e) => explanation := e;
          case WithAnnotationLabel(l) => labelText := l;
          case WithAnnotationSource(k) => source := k;
        }
        i := i + 1;
      }
      assert opts[..i] == opts;
    }
  }

  /** The options of one call, folded over the empty options. */
  method FoldAnnotationOptions(opts: seq<AnnotationOption>) returns (s: AnnotationSettings)
    ensures s == AnnotationAppliedAll(NoAnnotationSettings, opts)
  {
    var options := new AnnotationOptions();
    options.ApplyAll(opts);
    s := options.Value();
  }

  /** Folding a + b is folding a, then b. */
  lemma {:induction false} AnnotationAppliedAllAppend(s: AnnotationSettings, a: seq<AnnotationOption>, b: seq<AnnotationOption>)
    ensures AnnotationAppliedAll(s, a + b) == AnnotationAppliedAll(AnnotationAppliedAll(s, a), b)
    decreases |b|
  {
    if |b| == 0 {
      assert a + b == a;
    } else {
      var front := b[..|b| - 1];
      assert (a + b)[..|a + b| - 1] == a + front;
      assert (a + b)[|a + b| - 1] == b[|b| - 1];
      AnnotationAppliedAllAppend(s, a, front);
    }
  }

  /** A field that no option writes keeps its starting value. */
  lemma {:induction false} AnnotationUntouchedKept(s: AnnotationSettings, opts: seq<AnnotationOption>)
    ensures (forall i :: 0 <= i < |opts| ==> !opts[i].WithAnnotationExplanation?) ==>
      AnnotationAppliedAll(s, opts).explanation == s.explanation
    ensures (forall i :: 0 <= i < |opts| ==> !opts[i].WithAnnotationLabel?) ==>
      AnnotationAppliedAll(s, opts).labelText == s.labelText
    ensures (forall i :: 0 <= i < |opts| ==> !opts[i].WithAnnotationSource?) ==>
      AnnotationAppliedAll(s, opts).source == s.source
    decreases |opts|
  {
    if |opts| > 0 {
      var front := opts[..|opts| - 1];
      assert forall i :: 0 <= i < |front| ==> front[i] == opts[i];
      AnnotationUntouchedKept(s, front);
    }
  }

  /**
   * The last option that writes a field wins: o decides its field when no
   * later option writes the same field, whatever came before it and whatever
   * options for other fields follow.
   */
  lemma AnnotationLastWins(s: AnnotationSettings, pre: seq<AnnotationOption>, o: AnnotationOption, post: seq<AnnotationOption>)
    requires o.WithAnnotationExplanation? ==> forall i :: 0 <= i < |post| ==> !post[i].WithAnnotationExplanation?
    requires o.WithAnnotationLabel? ==> forall i :: 0 <= i < |post| ==> !post[i].WithAnnotationLabel?
    requires o.WithAnnotationSource? ==> forall i :: 0 <= i < |post| ==> !post[i].WithAnnotationSource?
    ensures var r := AnnotationAppliedAll(s, pre + [o] + post);
      (o.WithAnnotationExplanation? ==> r.explanation == o.explanation) &&
      (o.WithAnnotationLabel? ==> r.labelText == o.labelText) &&
      (o.WithAnnotationSource? ==> r.source == o.source)
  {
    AnnotationAppliedAllAppend(s, pre + [o], post);
    assert (pre + [o])[..|pre + [o]| - 1] == pre;
    AnnotationUntouchedKept(AnnotationAppliedAll(s, pre + [o]), post);
  }

  // ---- requests --------------------------------------------------------

  /** The result of a created annotation: the score always, explanation and label only when non-empty. */
  function RequestResult(score: Float64, s: AnnotationSettings): (r: Api.AnnotationResult)
    ensures r.score == Api.OptNil(true, false, score)
    ensures r.explanation.isSet <==> s.explanation != ""
    ensures r.labelText.isSet <==> s.labelText != ""
    ensures r.explanation.isSet ==> r.explanation == Api.OptNil(true, false, s.explanation)
    ensures r.labelText.isSet ==> r.labelText == Api.OptNil(true, false, s.labelText)
    ensures !r.explanation.isSet ==> r.explanation == Api.NoNilString
    ensures !r.labelText.isSet ==> r.labelText == Api.NoNilString
  {
    Api.AnnotationResult(
      if s.labelText != "" then Api.OptNil(true, false, s.labelText) else Api.NoNilString,
      Api.OptNil(true, false, score),
      if s.explanation != "" then Api.OptNil(true, false, s.explanation) else Api.NoNilString)
  }

  /** The SDK kind sent as the API kind: LLM and CODE map to themselves, anything else to HUMAN. */
  function RequestKind(source: AnnotatorKind): (k: Api.AnnotatorKind)
    ensures source == LLM ==> k == Api.KindLLM
    ensures source == Code ==> k == Api.KindCODE
    ensures source != LLM && source != Code ==> k == Api.KindHUMAN
  {
    if source == LLM then Api.KindLLM
    else if source == Code then Api.KindCODE
    else Api.KindHUMAN
  }

  /** The API kind read back as the SDK kind: LLM and CODE map back, anything else is Human. */
  function ResponseKind(k: Api.AnnotatorKind): (source: AnnotatorKind)
    ensures k == Api.KindLLM ==> source == LLM
    ensures k == Api.KindCODE ==> source == Code
    ensures k != Api.KindLLM && k != Api.KindCODE ==> source == Human
  {
    if k == Api.KindLLM then LLM
    else if k == Api.KindCODE then Code
    else Human
  }

  /** Sending a kind and reading it back gives the kind for LLM, CODE and HUMAN, and HUMAN for anything else. */
  lemma KindRoundTrip(source: AnnotatorKind)
    ensures ResponseKind(RequestKind(source)) == (if source in {LLM, Code, Human} then source else Human)
  {
  }

  /** The body CreateSpanAnnotation sends. */
  function SpanRequest(spanID: string, name: string, score: Float64, s: AnnotationSettings): (r: Api.AnnotateSpansRequestBody)
    ensures |r.data| == 1
    ensures r.data[0].spanID == spanID && r.data[0].name == name
    ensures r.data[0].annotatorKind == RequestKind(s.source)
    ensures r.data[0].result == Api.Opt(true, RequestResult(score, s))
  {
    Api.AnnotateSpansRequestBody([Api.SpanAnnotationData(spanID, name, RequestKind(s.source), Api.Opt(true, RequestResult(score, s)))])
  }

  /** The body CreateTraceAnnotation sends. */
  function TraceRequest(traceID: string, name: string, score: Float64, s: AnnotationSettings): (r: Api.AnnotateTracesRequestBody)
    ensures |r.data| == 1
    ensures r.data[0].traceID == traceID && r.data[0].name == name
    ensures r.data[0].annotatorKind == RequestKind(s.source)
    ensures r.data[0].result == Api.Opt(true, RequestResult(score, s))
  {
    Api.AnnotateTracesRequestBody([Api.TraceAnnotationData(traceID, name, RequestKind(s.source), Api.Opt(true, RequestResult(score, s)))])
  }

  /**
   * CreateSpanAnnotation: the request built from the folded options, and the
   * call's error (`sendErr`, an input) returned as is; the response is not read.
   */
  method CreateSpanAnnotation(spanID: string, name: string, score: Float64, opts: seq<AnnotationOption>, sendErr: Option<Error>)
    returns (req: Api.AnnotateSpansRequestBody, err: Option<Error>)
    ensures req == SpanRequest(spanID, name, score, AnnotationAppliedAll(NoAnnotationSettings, opts))
    ensures err == sendErr
  {
    var s := FoldAnnotationOptions(opts);
    req := SpanRequest(spanID, name, score, s);
    err := sendErr;
  }

  /** CreateTraceAnnotation, the same for a trace. */
  method CreateTraceAnnotation(traceID: string, name: string, score: Float64, opts: seq<AnnotationOption>, sendErr: Option<Error>)
    returns (req: Api.AnnotateTracesRequestBody, err: Option<Error>)
    ensures req == TraceRequest(traceID, name, score, AnnotationAppliedAll(NoAnnotationSettings, opts))
    ensures err == sendErr
  {
    var s := FoldAnnotationOptions(opts);
    req := TraceRequest(traceID, name, score, s);
    err := sendErr;
  }

  // ---- conversions -----------------------------------------------------

  /** A result field is read only when the result is present and the field is set and not null. */
  function Present<T>(result: Api.Opt<Api.AnnotationResult>, field: Api.AnnotationResult -> Api.OptNil<T>, zero: T): (v: T)
    ensures result.isSet && field(result.value).isSet && !field(result.value).isNull ==> v == field(result.value).value
    ensures !(result.isSet && field(result.value).isSet && !field(result.value).isNull) ==> v == zero
  {
    if result.isSet && field(result.value).isSet && !field(result.value).isNull then field(result.value).value else zero
  }

  function ScoreOf(r: Api.AnnotationResult): Api.OptNil<Float64> { r.score }
  function LabelOf(r: Api.AnnotationResult): Api.OptNil<string> { r.labelText }
  function ExplanationOf(r: Api.AnnotationResult): Api.OptNil<string> { r.explanation }

  /** convertSpanAnnotation on a non-nil annotation. */
  function SpanAnnotationOf(a: Api.SpanAnnotation): (r: Annotation)
    ensures r.id == a.id && r.spanID == a.spanID && r.traceID == "" && r.name == a.name
    ensures r.createdAt == a.createdAt && r.updatedAt == a.updatedAt
    ensures r.source == ResponseKind(a.annotatorKind)
    ensures r.score == Present(a.result, ScoreOf, 0.0)
    ensures r.labelText == Present(a.result, LabelOf, "")
    ensures r.explanation == Present(a.result, ExplanationOf, "")
  {
    Annotation(a.id, a.spanID, "", a.name,
      Present(a.result, ScoreOf, 0.0), Present(a.result, LabelOf, ""), Present(a.result, ExplanationOf, ""),
      ResponseKind(a.annotatorKind), a.createdAt, a.updatedAt)
  }

  /** convertTraceAnnotation on a non-nil annotation. */
  function TraceAnnotationOf(a: Api.TraceAnnotation): (r: Annotation)
    ensures r.id == a.id && r.traceID == a.traceID && r.spanID == "" && r.name == a.name
    ensures r.createdAt == a.createdAt && r.updatedAt == a.updatedAt
    ensures r.source == ResponseKind(a.annotatorKind)
    ensures r.score == Present(a.result, ScoreOf, 0.0)
    ensures r.labelText == Present(a.result, LabelOf, "")
    ensures r.explanation == Present(a.result, ExplanationOf, "")
  {
    Annotation(a.id, "", a.traceID, a.name,
      Present(a.result, ScoreOf, 0.0), Present(a.result, LabelOf, ""), Present(a.result, ExplanationOf, ""),
      ResponseKind(a.annotatorKind), a.createdAt, a.updatedAt)
  }

  /** convertSpanAnnotation: nil gives nil. */
  function ConvertSpanAnnotation(a: Option<Api.SpanAnnotation>): (r: Option<Annotation>)
    ensures a.None? <==> r.None?
    ensures a.Some? ==> r.value == SpanAnnotationOf(a.value)
  {
    match a
    case None => None
    case Some(x) => Some(SpanAnnotationOf(x))
  }

  /** convertTraceAnnotation: nil gives nil. */
  function ConvertTraceAnnotation(a: Option<Api.TraceAnnotation>): (r: Option<Annotation>)
    ensures a.None? <==> r.None?
    ensures a.Some? ==> r.value == TraceAnnotationOf(a.value)
  {
    match a
    case None => None
    case Some(x) => Some(TraceAnnotationOf(x))
  }

  /** Without a result, nothing is copied out of it. */
  lemma NoResultNoFields(a: Api.SpanAnnotation)
    requires !a.result.isSet
    ensures var r := SpanAnnotationOf(a); r.score == 0.0 && r.labelText == "" && r.explanation == ""
  {
  }

  /**
   * What CreateSpanAnnotation sends, echoed back by the server as a stored
   * annotation, converts to the same span, name and score, the explanation
   * and label that were given, and the kind normalised by KindRoundTrip.
   */
  lemma SpanAnnotationRoundTrip(spanID: string, name: string, score: Float64, s: AnnotationSettings,
                                id: string, createdAt: Api.Time, updatedAt: Api.Time)
    ensures var item := SpanRequest(spanID, name, score, s).data[0];
      var r := SpanAnnotationOf(Api.SpanAnnotation(id, item.spanID, item.name, item.annotatorKind, item.result, createdAt, updatedAt));
      r.spanID == spanID && r.name == name && r.score == score &&
      r.explanation == s.explanation && r.labelText == s.labelText &&
      r.source == (if s.source in {LLM, Code, Human} then s.source else Human)
  {
    KindRoundTrip(s.source);
  }

  /** The trace counterpart of SpanAnnotationRoundTrip. */
  lemma TraceAnnotationRoundTrip(traceID: string, name: string, score: Float64, s: AnnotationSettings,
                                 id: string, createdAt: Api.Time, updatedAt: Api.Time)
    ensures var item := TraceRequest(traceID, name, score, s).data[0];
      var r := TraceAnnotationOf(Api.TraceAnnotation(id, item.traceID, item.name, item.annotatorKind, item.result, createdAt, updatedAt));
      r.traceID == traceID && r.name == name && r.score == score &&
      r.explanation == s.explanation && r.labelText == s.labelText &&
      r.source == (if s.source in {LLM, Code, Human} then s.source else Human)
  {
    KindRoundTrip(s.source);
  }

  // ---- lists -----------------------------------------------------------

  /**
   * ListSpanAnnotations: the query names exactly the caller's span IDs; the
   * reply's error, "unexpected response type", or every annotation converted
   * in order.
   */
  method ListSpanAnnotations(spanIDs: seq<string>, reply: Api.Reply<Api.SpanAnnotationsResponseBody>)
    returns (params: Api.ListSpanAnnotationsParams, res: Result<seq<Annotation>, Error>)
    ensures params.spanIds == spanIDs
    ensures res.Success? <==> reply.Body?
    ensures res.Failure? ==> res.error == Api.Decoded(reply).error
    ensures res.Success? ==> Converted(reply.body.data, res.value, SpanAnnotationOf)
  {
    params := Api.ListSpanAnnotationsParams(spanIDs);
    var decoded := Api.Decoded(reply);
    if decoded.Failure? {
      return params, Failure(decoded.error);
    }
    var annotations := ConvertAll(decoded.value.data, SpanAnnotationOf);
    res := Success(annotations);
  }

  /** ListTraceAnnotations: the same for traces. */
  method ListTraceAnnotations(traceIDs: seq<string>, reply: Api.Reply<Api.TraceAnnotationsResponseBody>)
    returns (params: Api.ListTraceAnnotationsParams, res: Result<seq<Annotation>, Error>)
    ensures params.traceIds == traceIDs
    ensures res.Success? <==> reply.Body?
    ensures res.Failure? ==> res.error == Api.Decoded(reply).error
    ensures res.Success? ==> Converted(reply.body.data, res.value, TraceAnnotationOf)
  {
    params := Api.ListTraceAnnotationsParams(traceIDs);
    var decoded := Api.Decoded(reply);
    if decoded.Failure? {
      return params, Failure(decoded.error);
    }
    var annotations := ConvertAll(decoded.value.data, TraceAnnotationOf);
    res := Success(annotations);
  }
}
