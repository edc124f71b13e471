/**
 * api/routes.py: the REST routes. `health` is a constant; the analysis and
 * simulation routes load the project state and map each failure to HTTP 500
 * with a fixed detail text; the simulation route builds the mutation from
 * the request, naming only the parameter its type reads.
 */
module Routes {
  import opened Wrappers
  import opened Records
  import opened SignalExtractor
  import opened LlmReply
  import opened SupervisorAgent
  import opened WhatIfEngine

  /** A response: the body, or an `HTTPException` with its status and detail. */
  datatype Response<T> = Ok(body: T) | HttpError(status: int, detail: string)

  const INTERNAL_SERVER_ERROR := 500
  const LOAD_FAILED := "Failed to load project state data."
  const ANALYSIS_FAILED := "Internal analysis failed."
  const SIMULATION_FAILED := "Simulation failed."

  /** `health_check`. */
  function Health(): (h: map<string, string>)
    ensures h.Keys == {"status", "system"}
    ensures h["status"] == "ok" && h["system"] == "Meridian"
  {
    map["status" := "ok", "system" := "Meridian"]
  }

  // ---------------------------------------------------------------------
  // The mutation

  /** The request body: a type and four integer parameters that default to 0. */
  datatype MutationRequest = MutationRequest(kind: string, count: int, days: int, taskCount: int, prCount: int)

  /** The parameter a mutation type reads, and its value in the request; none for an unknown type. */
  function ParamFor(req: MutationRequest): Option<(string, int)> {
    if req.kind == "add_developers" then Some(("count", req.count))
    else if req.kind == "extend_deadline" then Some(("days", req.days))
    else if req.kind == "remove_scope" then Some(("task_count", req.taskCount))
    else if req.kind == "close_prs" then Some(("pr_count", req.prCount))
    else None
  }

  /** The mutation dictionary the route passes on: `type`, plus that type's one parameter. */
  function BuildMutation(req: MutationRequest): (m: Mutation)
    ensures m.kind == Some(req.kind)
    ensures ParamFor(req).None? ==> m.params == map[]
    ensures ParamFor(req).Some? ==>
              m.params.Keys == {ParamFor(req).value.0} && m.params[ParamFor(req).value.0] == ParamFor(req).value.1
  {
    match ParamFor(req)
    case None => Mutation(Some(req.kind), map[])
    case Some((key, value)) => Mutation(Some(req.kind), map[key := value])
  }

  /**
   * The mutation the engine applies is the one the request asked for: each
   * known type receives its own request field, and an unknown type changes
   * nothing.
   */
  lemma MutationAsRequested(data: ProjectData, req: MutationRequest)
    ensures var sim := ApplyMutation(data, BuildMutation(req));
            && (req.kind == "add_developers" ==> sim == AddDevelopersSpec(data, req.count))
            && (req.kind == "extend_deadline" ==> sim == data.(tasks := Shifted(data.tasks, req.days)))
            && (req.kind == "remove_scope" ==> sim == data.(tasks := RemoveScopeTasks(data.tasks, req.taskCount)))
            && (req.kind == "close_prs" ==> sim == ClosePrsSpec(data, req.prCount))
            && (ParamFor(req).None? ==> sim == data)
  {
    var m := BuildMutation(req);
    if ParamFor(req).Some? {
      var key := ParamFor(req).value.0;
      assert Param(m, key) == ParamFor(req).value.1;
    }
  }

  // ---------------------------------------------------------------------
  // The routes; `load` is the project state read from disk, `None` when reading or decoding fails

  /** `get_analysis`. */
  function GetAnalysis(load: Option<ProjectData>, ghost rank: map<string, nat>, calls: seq<LlmCall>,
                       decode: Decoder, silent: seq<string>): (r: Response<Analysis>)
    requires load.Some? ==> Ranked(Adjacency(load.value.tasks), rank)
    requires |calls| == |AGENT_NAMES|
    ensures r.HttpError? <==> load.None?
    ensures r.HttpError? ==> r.status == INTERNAL_SERVER_ERROR && r.detail == LOAD_FAILED
    ensures r.Ok? ==> r.body == RunFullAnalysis(load.value, rank, calls, decode, silent)
  {
    match load
    case None => HttpError(INTERNAL_SERVER_ERROR, LOAD_FAILED)
    case Some(data) => Ok(RunFullAnalysis(data, rank, calls, decode, silent))
  }

  /** `simulate`. */
  function SimulateRoute(load: Option<ProjectData>, req: MutationRequest, ghost rank: map<string, nat>)
    : (r: Response<SimulationResult>)
    requires load.Some? ==> Ranked(Adjacency(load.value.tasks), rank)
    ensures r.HttpError? <==> load.None?
    ensures r.HttpError? ==> r.status == INTERNAL_SERVER_ERROR && r.detail == LOAD_FAILED
    ensures r.Ok? ==> r.body == Simulate(load.value, BuildMutation(req), rank)
    ensures r.Ok? ==> r.body.mutationApplied.kind == Some(req.kind)
  {
    match load
    case None => HttpError(INTERNAL_SERVER_ERROR, LOAD_FAILED)
    case Some(data) => Ok(Simulate(data, BuildMutation(req), rank))
  }

  /** A request of an unknown type is answered with all-zero deltas. */
  lemma UnknownTypeNoDelta(data: ProjectData, req: MutationRequest, rank: map<string, nat>)
    requires Ranked(Adjacency(data.tasks), rank)
    requires ParamFor(req).None?
    ensures var r := SimulateRoute(Some(data), req, rank);
            && r.Ok? && r.body.delta.totalScore == 0.0 && !r.body.delta.riskLevelChanged
            && forall k :: k in r.body.delta.agentDeltas ==> r.body.delta.agentDeltas[k] == 0.0
  {
    var m := BuildMutation(req);
    assert m.kind !in {Some("add_developers"), Some("extend_deadline"), Some("remove_scope"), Some("close_prs")};
    UnknownMutationNoDelta(data, m, rank);
  }
}
