/**
 * project.go: project conversion, listing, lookup, creation and its options.
 */
module Projects {
  import opened Wrappers
  import opened Errors
  import Api
  import opened ClientOptions
  import opened Listing

  datatype Project = Project(id: string, name: string, description: string, createdAt: Api.Time, updatedAt: Api.Time)

  // ---- options ---------------------------------------------------------

  datatype ProjectSettings = ProjectSettings(name: string, description: string)
  const NoProjectSettings := ProjectSettings("", "")

  datatype ProjectOption = WithName(name: string) | WithDescription(description: string)

  function ProjectApplied(s: ProjectSettings, opt: ProjectOption): (r: ProjectSettings)
    ensures opt.WithName? ==> r == s.(name := opt.name)
    ensures opt.WithDescription? ==> r == s.(description := opt.description)
  {
    match opt
    case WithName(n) => s.(name := n)
    case WithDescription(d) => s.(description := d)
  }

  function ProjectAppliedAll(s: ProjectSettings, opts: seq<ProjectOption>): ProjectSettings
    decreases |opts|
  {
    if |opts| == 0 then s else ProjectApplied(ProjectAppliedAll(s, opts[..|opts| - 1]), opts[|opts| - 1])
  }

  /** projectOptions */
  class ProjectOptions {
    var name: string
    var description: string

    function Value(): ProjectSettings
      reads this
    {
      ProjectSettings(name, description)
    }

    constructor ()
      ensures Value() == NoProjectSettings
    {
      name, description := "", "";
    }

    method ApplyAll(opts: seq<ProjectOption>)
      modifies this
      ensures Value() == ProjectAppliedAll(old(Value()), opts)
    {
      var i := 0;
      while i < |opts|
        invariant 0 <= i <= |opts|
        invariant Value() == ProjectAppliedAll(old(Value()), opts[..i])
      {
        assert opts[..i + 1][..i] == opts[..i];
        match opts[i] {
          case WithName(n) => name := n;
          case WithDescription(d) => description := d;
        }
        i := i + 1;
      }
      assert opts[..i] == opts;
    }
  }

  /** Folding a + b is folding a, then b. */
  lemma {:induction false} ProjectAppliedAllAppend(s: ProjectSettings, a: seq<ProjectOption>, b: seq<ProjectOption>)
    ensures ProjectAppliedAll(s, a + b) == ProjectAppliedAll(ProjectAppliedAll(s, a), b)
    decreases |b|
  {
    if |b| == 0 {
      assert a + b == a;
    } else {
      var front := b[..|b| - 1];
      assert (a + b)[..|a + b| - 1] == a + front;
      assert (a + b)[|a + b| - 1] == b[|b| - 1];
      ProjectAppliedAllAppend(s, a, front);
    }
  }

  /** Without WithName (WithDescription) the name (description) keeps its starting value. */
  lemma {:induction false} ProjectUntouchedKept(s: ProjectSettings, opts: seq<ProjectOption>)
    ensures (forall i :: 0 <= i < |opts| ==> !opts[i].WithName?) ==> ProjectAppliedAll(s, opts).name == s.name
    ensures (forall i :: 0 <= i < |opts| ==> !opts[i].WithDescription?) ==> ProjectAppliedAll(s, opts).description == s.description
    decreases |opts|
  {
    if |opts| > 0 {
      var front := opts[..|opts| - 1];
      assert forall i :: 0 <= i < |front| ==> front[i] == opts[i];
      ProjectUntouchedKept(s, front);
    }
  }

  /** The last WithDescription (WithName) decides the description (name), whatever follows for the other field. */
  lemma ProjectLastWins(s: ProjectSettings, pre: seq<ProjectOption>, o: ProjectOption, post: seq<ProjectOption>)
    requires o.WithName? ==> forall i :: 0 <= i < |post| ==> !post[i].WithName?
    requires o.WithDescription? ==> forall i :: 0 <= i < |post| ==> !post[i].WithDescription?
    ensures var r := ProjectAppliedAll(s, pre + [o] + post);
      (o.WithName? ==> r.name == o.name) && (o.WithDescription? ==> r.description == o.description)
  {
    ProjectAppliedAllAppend(s, pre + [o], post);
    assert (pre + [o])[..|pre + [o]| - 1] == pre;
    ProjectUntouchedKept(ProjectAppliedAll(s, pre + [o]), post);
  }

  // ---- conversions -----------------------------------------------------

  /** convertProject on a non-nil project: the description only when set and not null; no timestamps. */
  function ProjectOf(p: Api.Project): (r: Project)
    ensures r.id == p.id && r.name == p.name && r.createdAt == 0 && r.updatedAt == 0
    ensures p.description.isSet && !p.description.isNull ==> r.description == p.description.value
    ensures !(p.description.isSet && !p.description.isNull) ==> r.description == ""
  {
    Project(p.id, p.name, if p.description.isSet && !p.description.isNull then p.description.value else "", 0, 0)
  }

  function ConvertProject(p: Option<Api.Project>): (r: Option<Project>)
    ensures p.None? <==> r.None?
    ensures p.Some? ==> r.value == ProjectOf(p.value)
  {
    match p
    case None => None
    case Some(x) => Some(ProjectOf(x))
  }

  /** ListProjects: the paging parameters sent, and the converted page or the error. */
  method ListProjects(opts: seq<ListOption>, reply: Api.Reply<Api.GetProjectsResponseBody>)
    returns (params: Api.Paging, res: Result<Page<Project>, Error>)
    ensures params == PagingFor(ListAppliedAll(DefaultListSettings, opts))
    ensures res.Success? <==> reply.Body?
    ensures res.Failure? ==> res.error == Api.Decoded(reply).error
    ensures res.Success? ==> (Converted(reply.body.data, res.value.items, ProjectOf) &&
      res.value.nextCursor == NextCursor(reply.body.nextCursor))
  {
    var options := FoldListOptions(opts);
    params := PagingFor(options);
    var decoded := Api.Decoded(reply);
    if decoded.Failure? {
      return params, Failure(decoded.error);
    }
    var projects := ConvertAll(decoded.value.data, ProjectOf);
    res := Success(Page(projects, NextCursor(decoded.value.nextCursor)));
  }

  /** GetProject and CreateProject: only the ID and the name of the reply; the description is dropped. */
  function FetchedProject(reply: Api.Reply<Api.ProjectResponseBody>): (res: Result<Project, Error>)
    ensures res.Success? <==> reply.Body?
    ensures res.Failure? ==> res.error == Api.Decoded(reply).error
    ensures res.Success? ==> res.value == Project(reply.body.data.id, reply.body.data.name, "", 0, 0)
  {
    match Api.Decoded(reply)
    case Failure(e) => Failure(e)
    case Success(body) => Success(Project(body.data.id, body.data.name, "", 0, 0))
  }

  /** The request CreateProject sends: the name argument, and the description only when non-empty. */
  function CreateProjectRequest(name: string, s: ProjectSettings): (r: Api.CreateProjectRequestBody)
    ensures r.name == name
    ensures r.description.isSet <==> s.description != ""
    ensures r.description.isSet ==> r.description.value == s.description
  {
    Api.CreateProjectRequestBody(name, if s.description != "" then Api.SetTo(s.description) else Api.NoString)
  }

  /** CreateProject: the request sent, and the project of the reply or the error. */
  method CreateProject(name: string, opts: seq<ProjectOption>, reply: Api.Reply<Api.ProjectResponseBody>)
    returns (req: Api.CreateProjectRequestBody, res: Result<Project, Error>)
    ensures req == CreateProjectRequest(name, ProjectAppliedAll(NoProjectSettings, opts))
    ensures res == FetchedProject(reply)
  {
    var options := new ProjectOptions();
    options.ApplyAll(opts);
    req := CreateProjectRequest(name, options.Value());
    res := FetchedProject(reply);
  }

  /** WithName has no effect on the request: the name argument is sent whatever the options say. */
  lemma CreateProjectIgnoresWithName(name: string, opts: seq<ProjectOption>, other: string)
    ensures CreateProjectRequest(name, ProjectAppliedAll(NoProjectSettings, opts + [WithName(other)]))
         == CreateProjectRequest(name, ProjectAppliedAll(NoProjectSettings, opts))
    ensures CreateProjectRequest(name, ProjectAppliedAll(NoProjectSettings, opts)).name == name
  {
    assert (opts + [WithName(other)])[..|opts|] == opts;
  }
}
