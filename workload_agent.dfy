/**
 * agents/workload_agent.py: the workload agent's deterministic part. The
 * evidence lists every developer's open-task count, names the most loaded
 * developer (the first to reach the maximum) and counts the unassigned open
 * tasks. This agent guards its model call: an exception is read as the
 * "LLM_ERROR" sentinel, so it always produces a result.
 */
module WorkloadAgent {
  import opened Wrappers
  import opened Text
  import opened Records
  import opened Tally
  import opened SignalExtractor
  import opened RiskFormula
  import opened LlmReply

  const AGENT := "workload_agent"
  const SIGNAL_REFS := [OVERLOADED_DEV_RATIO, TASK_CONCENTRATION_INDEX, UNASSIGNED_TASK_RATIO]

  /** The mean of the three workload scores: the risk formula's "workload" score. */
  function RiskContribution(signals: Signals): (r: real)
    ensures r == AgentScores(signals)["workload"]
    ensures ScoresInRange(signals) ==> 0.0 <= r <= 1.0
  {
    assert ScoresInRange(signals) ==> 0.0 <= AgentScores(signals)["workload"] <= 1.0 by {
      if ScoresInRange(signals) { AgentScoresInRange(signals); }
    }
    MeanScore(signals, OVERLOADED_DEV_RATIO, TASK_CONCENTRATION_INDEX, UNASSIGNED_TASK_RATIO)
  }

  /** 0.15 less confidence when few tasks are unassigned. */
  function Confidence(signals: Signals): (c: real)
    ensures c == 0.85 <==> ScoreOf(signals, UNASSIGNED_TASK_RATIO) < 0.2
    ensures c == 1.0 <==> ScoreOf(signals, UNASSIGNED_TASK_RATIO) >= 0.2
  {
    1.0 - (if ScoreOf(signals, UNASSIGNED_TASK_RATIO) < 0.2 then 0.15 else 0.0)
  }

  // ---------------------------------------------------------------------
  // Per-developer open-task counts

  /** One row of the count table: a display name and an open-task count. */
  datatype DevCount = DevCount(name: string, count: nat)

  /**
   * The rows the two loops visit: each developer in list order with
   * `open_assigned.get(dev_id, 0)`, or, without developers, each counted
   * assignee in the counter's order.
   */
  function Rows(devs: seq<Developer>, assignees: seq<string>): (rows: seq<DevCount>)
    ensures devs != [] ==> (|rows| == |devs| &&
              forall i :: 0 <= i < |devs| ==> rows[i] == DevCount(DisplayName(devs[i]), Occ(assignees, devs[i].devId)))
    ensures devs == [] ==> (|rows| == |Distinct(assignees)| &&
              forall i :: 0 <= i < |rows| ==> rows[i] == DevCount(Distinct(assignees)[i], Occ(assignees, Distinct(assignees)[i])))
  {
    if devs != [] then
      seq(|devs|, i requires 0 <= i < |devs| => DevCount(DisplayName(devs[i]), Occ(assignees, devs[i].devId)))
    else
      var keys := Distinct(assignees);
      seq(|keys|, i requires 0 <= i < |keys| => DevCount(keys[i], Occ(assignees, keys[i])))
  }

  /** `f"{name}: {count}"`. */
  function Line(row: DevCount): string {
    row.name + ": " + NatToString(row.count)
  }

  /** The leader: the first row with the largest count, and that count; (None, -1) for no rows. */
  datatype Leader = Leader(name: Option<string>, maxTasks: int)

  function LeaderOf(rows: seq<DevCount>): (l: Leader)
    ensures l.name.None? <==> rows == []
    ensures rows == [] ==> l.maxTasks == -1
    ensures forall i :: 0 <= i < |rows| ==> rows[i].count <= l.maxTasks
    ensures rows != [] ==> exists i :: 0 <= i < |rows| && rows[i].name == l.name.value && rows[i].count == l.maxTasks &&
                                       forall j :: 0 <= j < i ==> rows[j].count < l.maxTasks
  {
    if rows == [] then Leader(None, -1)
    else
      var init := rows[..|rows| - 1];
      var last := rows[|rows| - 1];
      var l := LeaderOf(init);
      assert forall i :: 0 <= i < |init| ==> init[i] == rows[i];
      if last.count > l.maxTasks then Leader(Some(last.name), last.count) else l
  }

  lemma LeaderStep(rows: seq<DevCount>, i: nat)
    requires i < |rows|
    ensures LeaderOf(rows[..i + 1]) ==
            if rows[i].count > LeaderOf(rows[..i]).maxTasks then Leader(Some(rows[i].name), rows[i].count)
            else LeaderOf(rows[..i])
  {
    assert rows[..i + 1][..i] == rows[..i];
  }

  /** One more line, for the next row. */
  lemma LinesSnoc(lines: seq<string>, rows: seq<DevCount>, i: nat)
    requires |lines| == i < |rows| && forall j :: 0 <= j < i ==> lines[j] == Line(rows[j])
    ensures forall j :: 0 <= j < i + 1 ==> (lines + [Line(rows[i])])[j] == Line(rows[j])
  {
  }

  /** The table loop: one line per row, and the running maximum with `count > max_tasks`. */
  method Tabulate(rows: seq<DevCount>) returns (lines: seq<string>, leader: Leader)
    ensures |lines| == |rows| && forall i :: 0 <= i < |rows| ==> lines[i] == Line(rows[i])
    ensures leader == LeaderOf(rows)
  {
    lines := [];
    leader := Leader(None, -1);
    assert rows[..0] == [];
    for i := 0 to |rows|
      invariant |lines| == i && forall j :: 0 <= j < i ==> lines[j] == Line(rows[j])
      invariant leader == LeaderOf(rows[..i])
    {
      LinesSnoc(lines, rows, i);
      lines := lines + [Line(rows[i])];
      if rows[i].count > leader.maxTasks {
        leader := Leader(Some(rows[i].name), rows[i].count);
      }
      assert leader == LeaderOf(rows[..i + 1]) by {
        LeaderStep(rows, i);
      }
    }
    assert rows[..|rows|] == rows;
  }

  /** With developers listed, the leader holds no more open tasks than the top assignee overall. */
  lemma LeaderWithinConcentration(tasks: seq<Task>, devs: seq<Developer>)
    ensures LeaderOf(Rows(devs, OpenAssignees(tasks))).maxTasks <= MaxDevTasks(tasks)
  {
    var rows := Rows(devs, OpenAssignees(tasks));
    if rows != [] {
      var l := LeaderOf(rows);
      var i :| 0 <= i < |rows| && rows[i].count == l.maxTasks;
    }
  }

  /** Without developers, the leader is the top assignee and its count the concentration numerator. */
  lemma LeaderWithoutDevelopers(tasks: seq<Task>)
    ensures OpenAssignees(tasks) != [] ==>
              LeaderOf(Rows([], OpenAssignees(tasks))).maxTasks == MaxDevTasks(tasks)
  {
    var a := OpenAssignees(tasks);
    var rows := Rows([], a);
    if a != [] {
      assert a[0] in Distinct(a);
      var k :| k in Distinct(a) && Occ(a, k) == MaxBy(Distinct(a), k => Occ(a, k));
      var i :| 0 <= i < |Distinct(a)| && Distinct(a)[i] == k;
      assert rows[i].count == MaxDevTasks(tasks);
      var l := LeaderOf(rows);
      var j :| 0 <= j < |rows| && rows[j].count == l.maxTasks;
      assert Distinct(a)[j] in Distinct(a);
    }
  }

  // ---------------------------------------------------------------------
  // Evidence and result

  datatype Findings = Findings(lines: seq<string>, leader: Leader, unassigned: nat)

  function FindingsOf(data: ProjectData): (f: Findings)
    ensures |f.lines| == |Rows(data.developers, OpenAssignees(data.tasks))|
    ensures data.developers != [] ==> (|f.lines| == |data.developers| &&
              forall i :: 0 <= i < |data.developers| ==>
                f.lines[i] == DisplayName(data.developers[i]) + ": " + NatToString(Occ(OpenAssignees(data.tasks), data.developers[i].devId)))
    ensures f.leader == LeaderOf(Rows(data.developers, OpenAssignees(data.tasks)))
    ensures f.unassigned == UnassignedCount(data.tasks)
  {
    var rows := Rows(data.developers, OpenAssignees(data.tasks));
    Findings(seq(|rows|, i requires 0 <= i < |rows| => Line(rows[i])), LeaderOf(rows), UnassignedCount(data.tasks))
  }

  /** The second line names a developer only when one has a non-empty name and more than zero tasks. */
  function OverloadLine(l: Leader): (s: string)
    ensures s == "Most overloaded dev: None" <==> !(l.name.Some? && l.name.value != "" && l.maxTasks > 0)
  {
    if l.name.Some? && l.name.value != "" && l.maxTasks > 0 then
      var s := "Most overloaded dev: " + l.name.value + " (" + IntToString(l.maxTasks) + " tasks)";
      assert s[|s| - 1] == ')';
      s
    else "Most overloaded dev: None"
  }

  function Evidence(f: Findings): (ev: seq<string>)
    ensures |ev| == 3
  {
    [ if f.lines != [] then "Open task counts: " + Join(f.lines, ", ") else "Open task counts: None",
      OverloadLine(f.leader),
      "Unassigned tasks: " + NatToString(f.unassigned) ]
  }

  function AnalyzeSpec(signals: Signals, data: ProjectData, call: LlmCall, decode: Decoder): (r: AgentResult)
    ensures r.agent == AGENT && r.signalRefs == SIGNAL_REFS && |r.evidence| == 3
    ensures r.riskContribution == AgentScores(signals)["workload"]
    ensures r.confidence == Confidence(signals)
    ensures call.Raised? || call == Returned(LLM_ERROR) ==>
              r.topRisks == [FALLBACK_RISK] && r.reasoning == FALLBACK_REASONING
    ensures call.Returned? && decode(Unwrap(call.text)).None? ==>
              r.topRisks == [FALLBACK_RISK] && r.reasoning == FALLBACK_REASONING
    ensures call.Returned? ==>
              r.topRisks == ParseReply(call.text, decode).topRisks && r.reasoning == ParseReply(call.text, decode).reasoning
    ensures r.evidence == Evidence(FindingsOf(data))
  {
    var reply := GuardedReply(call, decode);
    AgentResult(AGENT, RiskContribution(signals), Confidence(signals), reply.topRisks,
                Evidence(FindingsOf(data)), reply.reasoning, SIGNAL_REFS)
  }

  /** The rows read off the counter. */
  method BuildRows(devs: seq<Developer>, keys: seq<string>, counts: map<string, nat>, ghost a: seq<string>)
    returns (rows: seq<DevCount>)
    requires Tallies(keys, counts, a)
    ensures rows == Rows(devs, a)
  {
    if devs != [] {
      rows := seq(|devs|, i requires 0 <= i < |devs| => DevCount(DisplayName(devs[i]), Get(counts, devs[i].devId)));
    } else {
      rows := seq(|keys|, i requires 0 <= i < |keys| => DevCount(keys[i], counts[keys[i]]));
    }
  }

  /** `analyze`: the counter loop, the table loop, then the result. */
  method Analyze(signals: Signals, data: ProjectData, call: LlmCall, decode: Decoder) returns (r: AgentResult)
    ensures r == AnalyzeSpec(signals, data, call, decode)
  {
    var keys, counts := CountOpenAssigned(data.tasks);
    var rows := BuildRows(data.developers, keys, counts, OpenAssignees(data.tasks));
    var lines, leader := Tabulate(rows);
    var f := Findings(lines, leader, UnassignedCount(data.tasks));
    assert f == FindingsOf(data);
    var reply := GuardedReply(call, decode);
    r := AgentResult(AGENT, RiskContribution(signals), Confidence(signals), reply.topRisks,
                     Evidence(f), reply.reasoning, SIGNAL_REFS);
  }
}
