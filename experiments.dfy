/**
 * experiment.go: experiment conversion and ListExperiments.
 */
module Experiments {
  import opened Wrappers
  import opened Errors
  import Api
  import opened ClientOptions
  import opened Listing

  datatype Experiment = Experiment(
    id: string, datasetID: string, datasetVersionID: string, projectName: string,
    exampleCount: int, successfulRunCount: int, failedRunCount: int, missingRunCount: int,
    repetitions: int, createdAt: Api.Time, updatedAt: Api.Time)

  /** convertExperiment on a non-nil experiment: every count and ID as is, the project name when not null. */
  function ExperimentOf(e: Api.Experiment): (r: Experiment)
    ensures r.id == e.id && r.datasetID == e.datasetID && r.datasetVersionID == e.datasetVersionID
    ensures r.exampleCount == e.exampleCount && r.successfulRunCount == e.successfulRunCount
    ensures r.failedRunCount == e.failedRunCount && r.missingRunCount == e.missingRunCount
    ensures r.repetitions == e.repetitions && r.createdAt == e.createdAt && r.updatedAt == e.updatedAt
    ensures r.projectName == (if e.projectName.isNull then "" else e.projectName.value)
  {
    Experiment(e.id, e.datasetID, e.datasetVersionID,
      if e.projectName.isNull then "" else e.projectName.value,
      e.exampleCount, e.successfulRunCount, e.failedRunCount, e.missingRunCount,
      e.repetitions, e.createdAt, e.updatedAt)
  }

  function ConvertExperiment(e: Option<Api.Experiment>): (r: Option<Experiment>)
    ensures e.None? <==> r.None?
    ensures e.Some? ==> r.value == ExperimentOf(e.value)
  {
    match e
    case None => None
    case Some(x) => Some(ExperimentOf(x))
  }

  /** ListExperiments: the dataset ID and paging sent, and the converted page or the error. */
  method ListExperiments(datasetID: string, opts: seq<ListOption>, reply: Api.Reply<Api.ListExperimentsResponseBody>)
    returns (dataset: string, params: Api.Paging, res: Result<Page<Experiment>, Error>)
    ensures dataset == datasetID
    ensures params == PagingFor(ListAppliedAll(DefaultListSettings, opts))
    ensures res.Success? <==> reply.Body?
    ensures res.Failure? ==> res.error == Api.Decoded(reply).error
    ensures res.Success? ==> (Converted(reply.body.data, res.value.items, ExperimentOf) &&
      res.value.nextCursor == NextCursor(reply.body.nextCursor))
  {
    dataset := datasetID;
    var options := FoldListOptions(opts);
    params := PagingFor(options);
    var decoded := Api.Decoded(reply);
    if decoded.Failure? {
      return dataset, params, Failure(decoded.error);
    }
    var experiments := ConvertAll(decoded.value.data, ExperimentOf);
    res := Success(Page(experiments, NextCursor(decoded.value.nextCursor)));
  }
}
