/**
 * react-app/src/pages/CommsPage.tsx: the four-step remediation run. A run
 * refused while another is in progress changes nothing; otherwise it resets
 * the steps, moves each one in index order from pending to running to done,
 * marks the panel complete and shows the composite score and the comms
 * agent's score from the analysis in context.
 */
module CommsPage {
  import opened Wrappers
  import opened Text
  import opened Records
  import opened SupervisorAgent
  import AgentsPage

  datatype StepState = Pending | Running | Done

  datatype PanelStatus = Idle | InProgress | Complete

  /** A remediation step; its icon and detail text are presentation only, its duration a timer. */
  datatype RemStep = RemStep(title: string, duration: nat)

  const REM_STEPS: seq<RemStep> := [
    RemStep("Ping Silent Devs", 1200),
    RemStep("Escalate Threads", 1600),
    RemStep("Resolve Stale PRs", 1400),
    RemStep("Notify Project Manager", 900)]

  // ---------------------------------------------------------------------
  // Step states

  function Rank(s: StepState): nat {
    match s
    case Pending => 0
    case Running => 1
    case Done => 2
  }

  /** Done steps first, then at most one running step, then pending steps. */
  predicate InOrder(states: seq<StepState>) {
    && (forall a, b :: 0 <= a < b < |states| ==> Rank(states[a]) >= Rank(states[b]))
    && (forall a, b :: 0 <= a < b < |states| && states[a] == Running ==> states[b] != Running)
  }

  /** n steps of which the first `done` are done and, if `running`, the next one runs. */
  function Snapshot(n: nat, done: nat, running: bool): (s: seq<StepState>)
    requires done + (if running then 1 else 0) <= n
    ensures |s| == n
    ensures forall j :: 0 <= j < n ==> s[j] == (if j < done then Done else if j == done && running then Running else Pending)
  {
    seq(n, j requires 0 <= j < n => if j < done then Done else if j == done && running then Running else Pending)
  }

  /** Every snapshot reads in order. */
  lemma SnapshotInOrder(n: nat, done: nat, running: bool)
    requires done + (if running then 1 else 0) <= n
    ensures InOrder(Snapshot(n, done, running))
  {
  }

  /** Starting step i changes step i alone, from pending to running. */
  lemma StartChangesOnlyStep(n: nat, i: nat)
    requires i < n
    ensures Snapshot(n, i, false)[i] == Pending
    ensures Snapshot(n, i, false)[i := Running] == Snapshot(n, i, true)
  {
  }

  /** Finishing step i changes step i alone, from running to done. */
  lemma FinishChangesOnlyStep(n: nat, i: nat)
    requires i < n
    ensures Snapshot(n, i, true)[i] == Running
    ensures Snapshot(n, i, true)[i := Done] == Snapshot(n, i + 1, false)
  {
  }

  // ---------------------------------------------------------------------
  // The result

  datatype RemResult = RemResult(composite: string, commsScore: Option<int>)

  const NO_DATA_RESULT := RemResult("—", None)

  /**
   * The result for the analysis in context: the composite score with one
   * decimal and the comms agent's rounded percentage, absent when that agent
   * is missing; without an analysis, a dash and no score.
   */
  function RemResultOf(analysis: Option<Analysis>): (r: RemResult)
    ensures analysis.None? ==> r == NO_DATA_RESULT
    ensures analysis.Some? ==> r.composite == JsFixed1(analysis.value.riskScore)
    ensures analysis.Some? ==>
              (r.commsScore.None? <==> forall j :: 0 <= j < |analysis.value.agents| ==> analysis.value.agents[j].agent != CommsAgent.AGENT)
    ensures analysis.Some? ==>
              forall i :: 0 <= i < |analysis.value.agents| && analysis.value.agents[i].agent == CommsAgent.AGENT &&
                          (forall j :: 0 <= j < i ==> analysis.value.agents[j].agent != CommsAgent.AGENT) ==>
                r.commsScore == Some(JsRound(analysis.value.agents[i].riskContribution * 100.0))
  {
    match analysis
    case None => NO_DATA_RESULT
    case Some(data) =>
      var newScore := match AgentsPage.Find(data.agents, CommsAgent.AGENT)
                      case Some(a) => Some(JsRound(a.riskContribution * 100.0))
                      case None => None;
      RemResult(JsFixed1(data.riskScore), newScore)
  }

  /** Against the server's results, in its order and naming, the score is the comms agent's, the last one run. */
  lemma ServerCommsScore(a: Analysis)
    requires |a.agents| == |AGENT_NAMES|
    requires forall i :: 0 <= i < |AGENT_NAMES| ==> a.agents[i].agent == AGENT_NAMES[i]
    ensures RemResultOf(Some(a)).commsScore == Some(JsRound(a.agents[4].riskContribution * 100.0))
  {
    var f := AgentsPage.Find(a.agents, CommsAgent.AGENT);
    var k :| 0 <= k < |a.agents| && a.agents[k] == f.value && f.value.agent == CommsAgent.AGENT
             && forall j :: 0 <= j < k ==> a.agents[j].agent != CommsAgent.AGENT;
    assert k == 4;
  }

  // ---------------------------------------------------------------------
  // The page; each method below is one stretch of `triggerRemediation` between two awaits

  class CommsView {
    var remOpen: bool
    var stepStates: seq<StepState>
    var panelStatus: PanelStatus
    var remResult: Option<RemResult>
    var remRunning: bool

    /** One state per step, in order. */
    predicate Valid()
      reads this
    {
      |stepStates| == |REM_STEPS| && InOrder(stepStates)
    }

    constructor ()
      ensures Valid()
      ensures !remOpen && stepStates == Snapshot(|REM_STEPS|, 0, false) && panelStatus == Idle
      ensures remResult.None? && !remRunning
    {
      remOpen := false;
      stepStates := Snapshot(|REM_STEPS|, 0, false);
      panelStatus := Idle;
      remResult := None;
      remRunning := false;
      SnapshotInOrder(|REM_STEPS|, 0, false);
    }

    /**
     * The guard and the reset: refused while a run is in progress, with no
     * change; otherwise every step pending, the result cleared, the panel
     * open and running.
     */
    method Begin() returns (started: bool)
      requires Valid()
      modifies this
      ensures Valid()
      ensures started <==> !old(remRunning)
      ensures !started ==> unchanged(this)
      ensures started ==> remRunning && remOpen && remResult.None? && panelStatus == InProgress
                          && stepStates == Snapshot(|REM_STEPS|, 0, false)
    {
      if remRunning {
        return false;
      }
      remRunning := true;
      remOpen := true;
      remResult := None;
      stepStates := Snapshot(|REM_STEPS|, 0, false);
      panelStatus := InProgress;
      SnapshotInOrder(|REM_STEPS|, 0, false);
      return true;
    }

    /** `n[i] = 'running'`: with steps before i done, step i starts. */
    method StartStep(i: nat)
      requires Valid() && i < |REM_STEPS| && stepStates == Snapshot(|REM_STEPS|, i, false)
      modifies this
      ensures Valid() && stepStates == old(stepStates)[i := Running] == Snapshot(|REM_STEPS|, i, true)
      ensures remOpen == old(remOpen) && panelStatus == old(panelStatus)
      ensures remResult == old(remResult) && remRunning == old(remRunning)
    {
      StartChangesOnlyStep(|REM_STEPS|, i);
      stepStates := stepStates[i := Running];
      SnapshotInOrder(|REM_STEPS|, i, true);
    }

    /** `n[i] = 'done'`: after the step's delay, step i is done. */
    method FinishStep(i: nat)
      requires Valid() && i < |REM_STEPS| && stepStates == Snapshot(|REM_STEPS|, i, true)
      modifies this
      ensures Valid() && stepStates == old(stepStates)[i := Done] == Snapshot(|REM_STEPS|, i + 1, false)
      ensures remOpen == old(remOpen) && panelStatus == old(panelStatus)
      ensures remResult == old(remResult) && remRunning == old(remRunning)
    {
      FinishChangesOnlyStep(|REM_STEPS|, i);
      stepStates := stepStates[i := Done];
      SnapshotInOrder(|REM_STEPS|, i + 1, false);
    }

    /** After the loop: the panel complete, the result set, the run over. */
    method Conclude(analysis: Option<Analysis>)
      requires Valid()
      modifies this
      ensures Valid() && stepStates == old(stepStates) && remOpen == old(remOpen)
      ensures panelStatus == Complete && remResult == Some(RemResultOf(analysis)) && !remRunning
    {
      panelStatus := Complete;
      remResult := Some(RemResultOf(analysis));
      remRunning := false;
    }

    /**
     * `triggerRemediation`: nothing while a run is in progress; otherwise the
     * steps advance one at a time in index order, and the run ends with every
     * step done, the panel complete and the result of the analysis in context.
     */
    method TriggerRemediation(analysis: Option<Analysis>)
      requires Valid()
      modifies this
      ensures Valid()
      ensures old(remRunning) ==> unchanged(this)
      ensures !old(remRunning) ==>
                remOpen && !remRunning && panelStatus == Complete
                && stepStates == Snapshot(|REM_STEPS|, |REM_STEPS|, false)
                && remResult == Some(RemResultOf(analysis))
    {
      var started := Begin();
      if !started {
        return;
      }
      for i := 0 to |REM_STEPS|
        invariant Valid() && remOpen && remRunning
        invariant stepStates == Snapshot(|REM_STEPS|, i, false)
      {
        StartStep(i);
        FinishStep(i);
      }
      Conclude(analysis);
    }
  }

  /** At the end of a run every step is done. */
  lemma AllDoneAtEnd()
    ensures forall j :: 0 <= j < |REM_STEPS| ==> Snapshot(|REM_STEPS|, |REM_STEPS|, false)[j] == Done
  {
  }
}
