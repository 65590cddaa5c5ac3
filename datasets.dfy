/**
 * dataset.go: dataset conversion, listing, lookup by ID, and the upload
 * requests of CreateDataset and AddDatasetExamples.
 */
module Datasets {
  import opened Wrappers
  import opened Errors
  import Api
  import Observe
  import opened ClientOptions
  import opened Listing

  datatype Dataset = Dataset(
    id: string, name: string, description: string, exampleCount: int,
    createdAt: Api.Time, updatedAt: Api.Time)

  /** DatasetExample: its values are `any`. */
  datatype DatasetExample = DatasetExample(input: Observe.Value, output: Observe.Value, metadata: map<string, Observe.Value>)

  // ---- options ---------------------------------------------------------

  datatype DatasetOption = WithDatasetDescription(description: string)

  /** The description the options of one call end with: the last one given, else "". */
  function DatasetDescription(opts: seq<DatasetOption>): (d: string)
    ensures |opts| == 0 ==> d == ""
    ensures |opts| > 0 ==> d == opts[|opts| - 1].description
  {
    if |opts| == 0 then "" else opts[|opts| - 1].description
  }

  /** datasetOptions */
  class DatasetOptions {
    var description: string

    constructor ()
      ensures description == ""
    {
      description := "";
    }

    method ApplyAll(opts: seq<DatasetOption>)
      modifies this
      ensures description == (if |opts| == 0 then old(description) else DatasetDescription(opts))
    {
      var i := 0;
      while i < |opts|
        invariant 0 <= i <= |opts|
        invariant description == (if i == 0 then old(description) else opts[i - 1].description)
      {
        description := opts[i].description;
        i := i + 1;
      }
    }
  }

  // ---- conversions -----------------------------------------------------

  /** convertDataset on a non-nil dataset: the description only when not null. */
  function DatasetOf(d: Api.Dataset): (r: Dataset)
    ensures r.id == d.id && r.name == d.name && r.exampleCount == d.exampleCount
    ensures r.createdAt == d.createdAt && r.updatedAt == d.updatedAt
    ensures r.description == (if d.description.isNull then "" else d.description.value)
  {
    Dataset(d.id, d.name, if d.description.isNull then "" else d.description.value,
      d.exampleCount, d.createdAt, d.updatedAt)
  }

  function ConvertDataset(d: Option<Api.Dataset>): (r: Option<Dataset>)
    ensures d.None? <==> r.None?
    ensures d.Some? ==> r.value == DatasetOf(d.value)
  {
    match d
    case None => None
    case Some(x) => Some(DatasetOf(x))
  }

  /** ListDatasets: the paging parameters sent, and the converted page or the error. */
  method ListDatasets(opts: seq<ListOption>, reply: Api.Reply<Api.ListDatasetsResponseBody>)
    returns (params: Api.Paging, res: Result<Page<Dataset>, Error>)
    ensures params == PagingFor(ListAppliedAll(DefaultListSettings, opts))
    ensures res.Success? <==> reply.Body?
    ensures res.Failure? ==> res.error == Api.Decoded(reply).error
    ensures res.Success? ==> (Converted(reply.body.data, res.value.items, DatasetOf) &&
      res.value.nextCursor == NextCursor(reply.body.nextCursor))
  {
    var options := FoldListOptions(opts);
    params := PagingFor(options);
    var decoded := Api.Decoded(reply);
    if decoded.Failure? {
      return params, Failure(decoded.error);
    }
    var datasets := ConvertAll(decoded.value.data, DatasetOf);
    res := Success(Page(datasets, NextCursor(decoded.value.nextCursor)));
  }

  /** GetDataset: only the ID and the name of the reply; every other field is zero. */
  function FetchedDataset(reply: Api.Reply<Api.GetDatasetResponseBody>): (res: Result<Dataset, Error>)
    ensures res.Success? <==> reply.Body?
    ensures res.Failure? ==> res.error == Api.Decoded(reply).error
    ensures res.Success? ==> res.value == Dataset(reply.body.data.id, reply.body.data.name, "", 0, 0, 0)
  {
    match Api.Decoded(reply)
    case Failure(e) => Failure(e)
    case Success(body) => Success(Dataset(body.data.id, body.data.name, "", 0, 0, 0))
  }

  // ---- uploads ---------------------------------------------------------

  /** The generated upload items of convertExamplesToAPIFormat. */
  datatype UploadItems = UploadItems(inputs: seq<Api.UploadItem>, outputs: seq<Api.UploadItem>, metadata: seq<Api.UploadItem>)

  /**
   * convertExamplesToAPIFormat: three slices of len(examples) zero items; the
   * loop that would fill them does nothing, so no example value is sent.
   */
  method ConvertExamplesToAPIFormat(examples: seq<DatasetExample>) returns (items: UploadItems)
    ensures |items.inputs| == |examples| && |items.outputs| == |examples| && |items.metadata| == |examples|
    ensures items == ZeroItems(|examples|)
  {
    var inputs := seq(|examples|, _ => Api.UploadItem);
    var outputs := seq(|examples|, _ => Api.UploadItem);
    var metadata := seq(|examples|, _ => Api.UploadItem);
    var i := 0;
    while i < |examples|
      invariant 0 <= i <= |examples|
    {
      i := i + 1;
    }
    items := UploadItems(inputs, outputs, metadata);
  }

  /** `n` zero items in each slice. */
  function ZeroItems(n: nat): (items: UploadItems)
    ensures |items.inputs| == n && |items.outputs| == n && |items.metadata| == n
  {
    UploadItems(seq(n, _ => Api.UploadItem), seq(n, _ => Api.UploadItem), seq(n, _ => Api.UploadItem))
  }

  /** The upload request of both calls: one zero-valued split per example, the action, and an optional description. */
  function UploadRequest(name: string, count: nat, action: string, description: string): (r: Api.UploadDatasetRequest)
    ensures r.name == name
    ensures |r.inputs| == count && |r.outputs| == count && |r.metadata| == count && |r.splits| == count
    ensures r.action == Api.SetTo(action)
    ensures r.description.isSet <==> description != ""
    ensures r.description.isSet ==> r.description.value == description
  {
    var items := ZeroItems(count);
    Api.UploadDatasetRequest(name, items.inputs, items.outputs, items.metadata,
      seq(count, _ => Api.Nil(false, Api.UploadItem)), Api.SetTo(action),
      if description != "" then Api.SetTo(description) else Api.NoString)
  }

  /** Both uploads run synchronously. */
  const SyncParams := Api.UploadDatasetParams(Api.SetTo(true))

  /**
   * CreateDataset: a "create" upload, sync, with the description only when
   * non-empty; the result has the given name and the returned DatasetID.
   */
  method CreateDataset(name: string, examples: seq<DatasetExample>, opts: seq<DatasetOption>,
                       reply: Api.Reply<Api.UploadDatasetResponseBody>)
    returns (req: Api.UploadDatasetRequest, params: Api.UploadDatasetParams, res: Result<Dataset, Error>)
    ensures req == UploadRequest(name, |examples|, Api.ActionCreate, DatasetDescription(opts))
    ensures params == SyncParams
    ensures res.Success? <==> reply.Body?
    ensures res.Failure? ==> res.error == Api.Decoded(reply).error
    ensures res.Success? ==> res.value == Dataset(reply.body.data.datasetID, name, "", 0, 0, 0)
  {
    var options := new DatasetOptions();
    options.ApplyAll(opts);
    var items := ConvertExamplesToAPIFormat(examples);
    req := Api.UploadDatasetRequest(name, items.inputs, items.outputs, items.metadata,
      seq(|examples|, _ => Api.Nil(false, Api.UploadItem)), Api.SetTo(Api.ActionCreate),
      if options.description != "" then Api.SetTo(options.description) else Api.NoString);
    params := SyncParams;
    var decoded := Api.Decoded(reply);
    if decoded.Failure? {
      return req, params, Failure(decoded.error);
    }
    res := Success(Dataset(decoded.value.data.datasetID, name, "", 0, 0, 0));
  }

  /** AddDatasetExamples: an "append" upload, sync, never with a description; the response is not read. */
  method AddDatasetExamples(datasetName: string, examples: seq<DatasetExample>, sendErr: Option<Error>)
    returns (req: Api.UploadDatasetRequest, params: Api.UploadDatasetParams, err: Option<Error>)
    ensures req == UploadRequest(datasetName, |examples|, Api.ActionAppend, "")
    ensures params == SyncParams
    ensures err == sendErr
  {
    var items := ConvertExamplesToAPIFormat(examples);
    req := Api.UploadDatasetRequest(datasetName, items.inputs, items.outputs, items.metadata,
      seq(|examples|, _ => Api.Nil(false, Api.UploadItem)), Api.SetTo(Api.ActionAppend), Api.NoString);
    params := SyncParams;
    err := sendErr;
  }

  /** The two uploads differ only in the action and the description. */
  lemma UploadsDiffer(name: string, count: nat, description: string)
    ensures UploadRequest(name, count, Api.ActionCreate, description).(action := Api.SetTo(Api.ActionAppend), description := Api.NoString)
         == UploadRequest(name, count, Api.ActionAppend, "")
    ensures UploadRequest(name, count, Api.ActionCreate, description).action != UploadRequest(name, count, Api.ActionAppend, "").action
  {
    assert Api.ActionCreate[0] != Api.ActionAppend[0];
  }
}
