/**
 * The shapes of the generated REST bindings (internal/api) that the wrappers
 * read and build.  The generated package itself is not part of this model;
 * each record has the fields the wrappers use, and the optional-field wrappers
 * follow the generator's conventions:
 *   Opt<T>    - OptX:    isSet, value
 *   OptNil<T> - OptNilX: isSet, isNull, value
 *   Nil<T>    - NilX:    isNull, value
 * A zero wrapper is unset (and not null) and holds the zero value.
 */
module Api {
  import opened Wrappers
  import Errors

  /** float64 scores are carried through, never computed on. */
  type Float64 = real
  /** time.Time values, only copied. */
  type Time = int

  datatype Opt<T> = Opt(isSet: bool, value: T)
  datatype OptNil<T> = OptNil(isSet: bool, isNull: bool, value: T)
  datatype Nil<T> = Nil(isNull: bool, value: T)

  /** The zero wrappers of the generated code. */
  const NoString: Opt<string> := Opt(false, "")
  const NoInt: Opt<int> := Opt(false, 0)
  const NoNilString: OptNil<string> := OptNil(false, false, "")
  const NoNilFloat: OptNil<Float64> := OptNil(false, false, 0.0)

  /** SetTo(v) on an OptX. */
  function SetTo<T>(v: T): (o: Opt<T>)
    ensures o.isSet && o.value == v
  {
    Opt(true, v)
  }

  /**
   * The outcome of one generated API call, which the model takes as an input:
   * a transport error, a response of another type than the success body
   * (an error response), or the success body.
   */
  datatype Reply<T> = Transport(err: Errors.Error) | UnexpectedType | Body(body: T)

  /** The check every wrapper makes: a transport error is returned as is, any other response type becomes an APIError. */
  function Decoded<T>(r: Reply<T>): (res: Result<T, Errors.Error>)
    ensures r.Transport? ==> res == Failure(r.err)
    ensures r.UnexpectedType? ==> res == Failure(Errors.Api(Errors.UnexpectedResponse))
    ensures r.Body? ==> res == Success(r.body)
    ensures res.Success? <==> r.Body?
  {
    match r
    case Transport(e) => Failure(e)
    case UnexpectedType => Failure(Errors.Api(Errors.UnexpectedResponse))
    case Body(b) => Success(b)
  }

  // ---- annotations ----------------------------------------------------

  /** Annotator kinds are strings in the generated code. */
  type AnnotatorKind = string
  const KindLLM: AnnotatorKind := "LLM"
  const KindCODE: AnnotatorKind := "CODE"
  const KindHUMAN: AnnotatorKind := "HUMAN"

  datatype AnnotationResult = AnnotationResult(
    labelText: OptNil<string>, score: OptNil<Float64>, explanation: OptNil<string>)

  const EmptyResult := AnnotationResult(NoNilString, NoNilFloat, NoNilString)

  datatype SpanAnnotationData = SpanAnnotationData(
    spanID: string, name: string, annotatorKind: AnnotatorKind, result: Opt<AnnotationResult>)

  datatype TraceAnnotationData = TraceAnnotationData(
    traceID: string, name: string, annotatorKind: AnnotatorKind, result: Opt<AnnotationResult>)

  datatype AnnotateSpansRequestBody = AnnotateSpansRequestBody(data: seq<SpanAnnotationData>)
  datatype AnnotateTracesRequestBody = AnnotateTracesRequestBody(data: seq<TraceAnnotationData>)

  datatype SpanAnnotation = SpanAnnotation(
    id: string, spanID: string, name: string, annotatorKind: AnnotatorKind,
    result: Opt<AnnotationResult>, createdAt: Time, updatedAt: Time)

  datatype TraceAnnotation = TraceAnnotation(
    id: string, traceID: string, name: string, annotatorKind: AnnotatorKind,
    result: Opt<AnnotationResult>, createdAt: Time, updatedAt: Time)

  datatype SpanAnnotationsResponseBody = SpanAnnotationsResponseBody(data: seq<SpanAnnotation>)
  datatype TraceAnnotationsResponseBody = TraceAnnotationsResponseBody(data: seq<TraceAnnotation>)

  /** The query of ListSpanAnnotationsBySpanIds and of ListTraceAnnotationsByTraceIds. */
  datatype ListSpanAnnotationsParams = ListSpanAnnotationsParams(spanIds: seq<string>)
  datatype ListTraceAnnotationsParams = ListTraceAnnotationsParams(traceIds: seq<string>)

  // ---- list parameters -------------------------------------------------

  /** The cursor and limit parameters every list endpoint takes. */
  datatype Paging = Paging(cursor: Opt<string>, limit: Opt<int>)

  // ---- prompts -----------------------------------------------------------

  datatype Prompt = Prompt(
    id: string, name: string, description: OptNil<string>, sourcePromptID: OptNil<string>)

  datatype GetPromptsResponseBody = GetPromptsResponseBody(data: seq<Prompt>, nextCursor: Nil<string>)

  datatype PromptMessage = PromptMessage(role: string, content: string)

  datatype PromptTemplate =
    | PromptStringTemplate(template: string)
    | PromptChatTemplate(messages: seq<PromptMessage>)

  const TemplateFormatMUSTACHE := "MUSTACHE"
  const TemplateTypeSTR := "STR"
  const TemplateTypeCHAT := "CHAT"

  datatype PromptVersion = PromptVersion(
    id: string, description: Nil<string>, modelName: string, modelProvider: string,
    templateType: string, template: PromptTemplate)

  datatype PromptData = PromptData(name: string, description: Opt<string>)

  datatype PromptVersionData = PromptVersionData(
    modelName: string, modelProvider: string, templateFormat: string,
    templateType: string, template: PromptTemplate)

  datatype CreatePromptRequestBody = CreatePromptRequestBody(prompt: PromptData, version: PromptVersionData)
  datatype PromptVersionResponseBody = PromptVersionResponseBody(data: PromptVersion)
  datatype GetPromptVersionsResponseBody = GetPromptVersionsResponseBody(data: seq<PromptVersion>, nextCursor: Nil<string>)

  // ---- datasets ----------------------------------------------------------

  datatype Dataset = Dataset(
    id: string, name: string, description: Nil<string>, exampleCount: int,
    createdAt: Time, updatedAt: Time)

  datatype ListDatasetsResponseBody = ListDatasetsResponseBody(data: seq<Dataset>, nextCursor: Nil<string>)

  /** The generated input/output/metadata items and split items are empty structs. */
  datatype UploadItem = UploadItem
  const ActionCreate := "create"
  const ActionAppend := "append"

  datatype UploadDatasetRequest = UploadDatasetRequest(
    name: string, inputs: seq<UploadItem>, outputs: seq<UploadItem>, metadata: seq<UploadItem>,
    splits: seq<Nil<UploadItem>>, action: Opt<string>, description: Opt<string>)

  datatype UploadDatasetParams = UploadDatasetParams(sync: Opt<bool>)
  datatype UploadDatasetResponseData = UploadDatasetResponseData(datasetID: string)
  datatype UploadDatasetResponseBody = UploadDatasetResponseBody(data: UploadDatasetResponseData)
  datatype GetDatasetResponseBody = GetDatasetResponseBody(data: Dataset)

  // ---- projects ----------------------------------------------------------

  datatype Project = Project(id: string, name: string, description: OptNil<string>)
  datatype GetProjectsResponseBody = GetProjectsResponseBody(data: seq<Project>, nextCursor: Nil<string>)
  datatype ProjectResponseBody = ProjectResponseBody(data: Project)
  datatype CreateProjectRequestBody = CreateProjectRequestBody(name: string, description: Opt<string>)

  // ---- spans -------------------------------------------------------------

  datatype SpanContext = SpanContext(traceID: string, spanID: string)

  datatype Span = Span(
    id: Opt<string>, name: string, spanKind: string, statusCode: string,
    statusMessage: Opt<string>, parentID: OptNil<string>, context: SpanContext,
    startTime: Time, endTime: Time)

  datatype SpansResponseBody = SpansResponseBody(data: seq<Span>, nextCursor: Nil<string>)

  // ---- experiments -------------------------------------------------------

  datatype Experiment = Experiment(
    id: string, datasetID: string, datasetVersionID: string, projectName: Nil<string>,
    exampleCount: int, successfulRunCount: int, failedRunCount: int, missingRunCount: int,
    repetitions: int, createdAt: Time, updatedAt: Time)

  datatype ListExperimentsResponseBody = ListExperimentsResponseBody(data: seq<Experiment>, nextCursor: Nil<string>)
}
