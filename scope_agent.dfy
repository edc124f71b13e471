/**
 * agents/scope_agent.py: the scope agent's deterministic part. The evidence
 * compares the baseline task count with the current one, lists the tasks
 * added to the current sprint after it started, and counts the pull
 * requests linked to no task.
 */
module ScopeAgent {
  import opened Wrappers
  import opened Text
  import opened Records
  import opened SignalExtractor
  import opened RiskFormula
  import opened LlmReply

  const AGENT := "scope_agent"
  const SIGNAL_REFS := [MID_SPRINT_TASK_ADDITIONS, SCOPE_GROWTH_RATE, OUT_OF_SCOPE_PR_COUNT]

  /** The mean of the three scope scores: the risk formula's "scope" score. */
  function RiskContribution(signals: Signals): (r: real)
    ensures r == AgentScores(signals)["scope"]
    ensures ScoresInRange(signals) ==> 0.0 <= r <= 1.0
  {
    assert ScoresInRange(signals) ==> 0.0 <= AgentScores(signals)["scope"] <= 1.0 by {
      if ScoresInRange(signals) { AgentScoresInRange(signals); }
    }
    MeanScore(signals, MID_SPRINT_TASK_ADDITIONS, SCOPE_GROWTH_RATE, OUT_OF_SCOPE_PR_COUNT)
  }

  /** 0.1 less confidence exactly when no mid-sprint addition was scored. */
  function Confidence(signals: Signals): (c: real)
    ensures c == 0.9 <==> ScoreOf(signals, MID_SPRINT_TASK_ADDITIONS) == 0.0
    ensures c == 1.0 <==> ScoreOf(signals, MID_SPRINT_TASK_ADDITIONS) != 0.0
  {
    1.0 - (if ScoreOf(signals, MID_SPRINT_TASK_ADDITIONS) == 0.0 then 0.1 else 0.0)
  }

  /** The sprint loop with its `break`: the first sprint containing `now`. */
  method FindCurrentSprint(sprints: seq<Sprint>, now: int) returns (current: Option<Sprint>)
    ensures current == CurrentSprint(sprints, now)
  {
    current := None;
    var i := 0;
    while i < |sprints| && current.None?
      invariant 0 <= i <= |sprints|
      invariant current.None? ==> CurrentSprint(sprints, now) == CurrentSprint(sprints[i..], now)
      invariant current.Some? ==> current == CurrentSprint(sprints, now)
      decreases |sprints| - i, if current.None? then 1 else 0
    {
      CurrentSprintStep(sprints, now, i);
      if sprints[i].startDate <= now <= sprints[i].endDate {
        current := Some(sprints[i]);
      } else {
        i := i + 1;
      }
    }
  }

  /** One step of the search: the sprint at i is the answer from i on, or the search moves past it. */
  lemma CurrentSprintStep(sprints: seq<Sprint>, now: int, i: nat)
    requires i < |sprints|
    ensures sprints[i].startDate <= now <= sprints[i].endDate ==> CurrentSprint(sprints[i..], now) == Some(sprints[i])
    ensures !(sprints[i].startDate <= now <= sprints[i].endDate) ==>
              CurrentSprint(sprints[i..], now) == CurrentSprint(sprints[i + 1..], now)
  {
    assert sprints[i..][1..] == sprints[i + 1..];
  }

  /** The ids of the mid-sprint additions, in task order. */
  function MidAdditionIds(tasks: seq<Task>, sp: Sprint): (ids: seq<string>)
    ensures |ids| == Count(tasks, (t: Task) => IsMidSprintAddition(t, sp))
    ensures forall id :: id in ids <==> exists t :: t in tasks && IsMidSprintAddition(t, sp) && t.taskId == id
  {
    if tasks == [] then []
    else
      var init := tasks[..|tasks| - 1];
      var t := tasks[|tasks| - 1];
      assert tasks == init + [t];
      CountSnoc(init, t, (t: Task) => IsMidSprintAddition(t, sp));
      MidAdditionIds(init, sp) + (if IsMidSprintAddition(t, sp) then [t.taskId] else [])
  }

  /** `mid_additions`: empty without a current sprint. */
  function MidAdditions(data: ProjectData): (ids: seq<string>)
    ensures |ids| == MidSprintAdditions(data)
    ensures CurrentSprint(data.sprints, data.now).None? ==> ids == []
  {
    match CurrentSprint(data.sprints, data.now)
    case None => []
    case Some(sp) => MidAdditionIds(data.tasks, sp)
  }

  /** The loop appending each mid-sprint addition's id. */
  method CollectMidAdditions(tasks: seq<Task>, sp: Sprint) returns (ids: seq<string>)
    ensures ids == MidAdditionIds(tasks, sp)
  {
    ids := [];
    for i := 0 to |tasks|
      invariant ids == MidAdditionIds(tasks[..i], sp)
    {
      assert tasks[..i + 1][..i] == tasks[..i];
      if IsMidSprintAddition(tasks[i], sp) {
        ids := ids + [tasks[i].taskId];
      }
    }
    assert tasks[..|tasks|] == tasks;
  }

  datatype Findings = Findings(baseline: nat, total: nat, midAdditions: seq<string>, orphanPrs: nat)

  function FindingsOf(data: ProjectData): (f: Findings)
    ensures f.baseline == BaselineCount(data.tasks) && f.baseline <= f.total == |data.tasks|
    ensures |f.midAdditions| == MidSprintAdditions(data)
    ensures f.orphanPrs == OrphanPrCount(data.pullRequests)
  {
    Findings(BaselineCount(data.tasks), |data.tasks|, MidAdditions(data), OrphanPrCount(data.pullRequests))
  }

  function Evidence(f: Findings): (ev: seq<string>)
    ensures |ev| == 3
  {
    [ "Scope growth: " + NatToString(f.baseline) + " baseline tasks -> " + NatToString(f.total) + " current tasks",
      if f.midAdditions != [] then
        "Mid-sprint additions (" + NatToString(|f.midAdditions|) + "): " + Join(f.midAdditions, ", ")
      else "Mid-sprint additions: None",
      "PRs with no linked task: " + NatToString(f.orphanPrs) ]
  }

  function AnalyzeSpec(signals: Signals, data: ProjectData, call: LlmCall, decode: Decoder): (r: Result<AgentResult, string>)
    ensures r.Failure? <==> call.Raised?
    ensures r.Success? ==>
              && r.value.agent == AGENT
              && r.value.riskContribution == AgentScores(signals)["scope"]
              && r.value.confidence == Confidence(signals)
              && |r.value.evidence| == 3
              && r.value.signalRefs == SIGNAL_REFS
    ensures call == Returned(LLM_ERROR) ==>
              r.Success? && r.value.topRisks == [FALLBACK_RISK] && r.value.reasoning == FALLBACK_REASONING
    ensures call.Returned? && decode(Unwrap(call.text)).None? ==>
              r.Success? && r.value.topRisks == [FALLBACK_RISK] && r.value.reasoning == FALLBACK_REASONING
    ensures call.Raised? ==> r.error == call.message
    ensures call.Returned? ==>
              && r.Success?
              && r.value.topRisks == ParseReply(call.text, decode).topRisks
              && r.value.reasoning == ParseReply(call.text, decode).reasoning
    ensures r.Success? ==> r.value.evidence == Evidence(FindingsOf(data))
  {
    var ev := Evidence(FindingsOf(data));
    match AgentReply(call, decode)
    case Failure(e) => Failure(e)
    case Success(reply) =>
      Success(AgentResult(AGENT, RiskContribution(signals), Confidence(signals), reply.topRisks, ev,
                          reply.reasoning, SIGNAL_REFS))
  }

  /** `analyze`: the sprint loop, the additions loop, then the result. */
  method Analyze(signals: Signals, data: ProjectData, call: LlmCall, decode: Decoder)
    returns (r: Result<AgentResult, string>)
    ensures r == AnalyzeSpec(signals, data, call, decode)
  {
    var current := FindCurrentSprint(data.sprints, data.now);
    var mid: seq<string> := [];
    if current.Some? {
      mid := CollectMidAdditions(data.tasks, current.value);
    }
    var f := Findings(BaselineCount(data.tasks), |data.tasks|, mid, OrphanPrCount(data.pullRequests));
    assert f == FindingsOf(data);
    var ev := Evidence(f);
    match AgentReply(call, decode)
    case Failure(e) =>
      r := Failure(e);
    case Success(reply) =>
      r := Success(AgentResult(AGENT, RiskContribution(signals), Confidence(signals), reply.topRisks, ev,
                               reply.reasoning, SIGNAL_REFS));
  }
}
