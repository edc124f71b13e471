/**
 * agents/supervisor_agent.py: runs the five agents on one signal result,
 * replacing an agent that raises by a fixed failure record, and assembles the
 * analysis the API returns from the risk score, the agent results and the
 * signals. The thread pool only runs the agents side by side; the results
 * are gathered in submission order, so the model runs them in sequence.
 */
module SupervisorAgent {
  import opened Wrappers
  import opened Text
  import opened Records
  import opened SignalExtractor
  import opened RiskFormula
  import opened LlmReply
  import DependencyAgent
  import WorkloadAgent
  import ScopeAgent
  import DelayAgent
  import CommsAgent

  /** The agents' own names, in the order the server runs them. */
  const AGENT_NAMES: seq<string> :=
    [DependencyAgent.AGENT, WorkloadAgent.AGENT, ScopeAgent.AGENT, DelayAgent.AGENT, CommsAgent.AGENT]

  const PACKAGE := "agents"

  /** The dotted names of the agent modules, `agents.<name>`. */
  const MODULES: seq<string> := [PACKAGE + "." + AGENT_NAMES[0], PACKAGE + "." + AGENT_NAMES[1],
    PACKAGE + "." + AGENT_NAMES[2], PACKAGE + "." + AGENT_NAMES[3], PACKAGE + "." + AGENT_NAMES[4]]

  // ---------------------------------------------------------------------
  // The failure record

  const FAILED_PREFIX := "Agent failed to execute: "
  const FAILED_EVIDENCE := "No evidence due to failure."
  const FAILED_REASONING := "Exception encountered during execution."

  /** `name.split('.')[-1]`: the text after the last dot. */
  function LastSegment(name: string): (seg: string)
    ensures '.' !in seg
    ensures EndsWith(name, seg)
    ensures '.' !in name ==> seg == name
  {
    var pieces := Split(name, ".");
    assert '.' !in Last(pieces) && EndsWith(name, Last(pieces)) by {
      SplitCharFree(name, '.');
      JoinSplit(name, ".");
      JoinEndsWithLast(pieces, ".");
    }
    assert '.' !in name ==> pieces == [name] by {
      if '.' !in name {
        CharAbsent(name, '.');
        SplitAbsent(name, ".");
      }
    }
    Last(pieces)
  }

  /** A module inside a dot-free package is known by its own dot-free name. */
  lemma SegmentAfterPackage(pkg: string, name: string)
    requires '.' !in pkg && '.' !in name
    ensures LastSegment(pkg + "." + name) == name
  {
    var s := pkg + "." + name;
    forall i: nat | i < |pkg|
      ensures !OccursAt(s, ".", i)
    {
      assert s[i..][0] == pkg[i];
    }
    SplitAfter(pkg, ".", name);
    CharAbsent(name, '.');
    SplitAbsent(name, ".");
  }

  /** The fallback for every agent module carries that agent's own name. */
  lemma FallbackNamesAreAgentNames()
    ensures forall i :: 0 <= i < |MODULES| ==> LastSegment(MODULES[i]) == AGENT_NAMES[i]
  {
    forall i | 0 <= i < |MODULES|
      ensures LastSegment(MODULES[i]) == AGENT_NAMES[i]
    {
      SegmentAfterPackage(PACKAGE, AGENT_NAMES[i]);
    }
  }

  /** The record that stands in for an agent that raised. */
  function FailedResult(agent: string, error: string): AgentResult {
    AgentResult(agent, 0.0, 0.0, [FAILED_PREFIX + error], [FAILED_EVIDENCE], FAILED_REASONING, [])
  }

  /** `_safe_analyze`: the agent's result, or the failure record named after the module. */
  function SafeAnalyze(moduleName: string, outcome: Result<AgentResult, string>): (r: AgentResult)
    ensures outcome.Success? ==> r == outcome.value
    ensures outcome.Failure? ==>
              && r.agent == LastSegment(moduleName) && '.' !in r.agent
              && r.riskContribution == 0.0 && r.confidence == 0.0
              && r.topRisks == [FAILED_PREFIX + outcome.error]
              && r.evidence == [FAILED_EVIDENCE] && r.reasoning == FAILED_REASONING
              && r.signalRefs == []
  {
    match outcome
    case Success(v) => v
    case Failure(e) => FailedResult(LastSegment(moduleName), e)
  }

  // ---------------------------------------------------------------------
  // The five agents

  /**
   * The shape of an agent's outcome: a result named `name`, with a positive
   * confidence and the contribution the formula gives `key`; a failure exactly
   * when the agent can let an exception through and the model call raised.
   */
  predicate OutcomeShape(name: string, key: string, canRaise: bool, signals: Signals, call: LlmCall,
                         r: Result<AgentResult, string>)
  {
    && (r.Failure? <==> canRaise && call.Raised?)
    && (r.Success? ==> r.value.agent == name && r.value.confidence > 0.0)
    && (r.Success? ==> key in AgentScores(signals) && r.value.riskContribution == AgentScores(signals)[key])
  }

  /** The agents' names and keys, position by position. */
  lemma NamesAndKeys()
    ensures AGENT_NAMES[0] == DependencyAgent.AGENT && AGENT_KEYS[0] == "dependency"
    ensures AGENT_NAMES[1] == WorkloadAgent.AGENT && AGENT_KEYS[1] == "workload"
    ensures AGENT_NAMES[2] == ScopeAgent.AGENT && AGENT_KEYS[2] == "scope"
    ensures AGENT_NAMES[3] == DelayAgent.AGENT && AGENT_KEYS[3] == "delay"
    ensures AGENT_NAMES[4] == CommsAgent.AGENT && AGENT_KEYS[4] == "comms"
  {
  }

  /** The dependency agent's outcome. */
  function DependencyOutcome(signals: Signals, data: ProjectData, ghost rank: map<string, nat>, call: LlmCall,
                             decode: Decoder): (r: Result<AgentResult, string>)
    requires Ranked(Adjacency(data.tasks), rank)
    ensures OutcomeShape(DependencyAgent.AGENT, "dependency", true, signals, call, r)
  {
    DependencyAgent.AnalyzeSpec(signals, data, rank, call, decode)
  }

  /** The workload agent's outcome: it catches its own exceptions, so it always succeeds. */
  function WorkloadOutcome(signals: Signals, data: ProjectData, call: LlmCall, decode: Decoder): (r: Result<AgentResult, string>)
    ensures OutcomeShape(WorkloadAgent.AGENT, "workload", false, signals, call, r)
  {
    var a := WorkloadAgent.AnalyzeSpec(signals, data, call, decode);
    assert a.confidence > 0.0 by {
      assert a.confidence == WorkloadAgent.Confidence(signals);
    }
    Success(a)
  }

  /** The scope agent's outcome. */
  function ScopeOutcome(signals: Signals, data: ProjectData, call: LlmCall, decode: Decoder): (r: Result<AgentResult, string>)
    ensures OutcomeShape(ScopeAgent.AGENT, "scope", true, signals, call, r)
  {
    ScopeAgent.AnalyzeSpec(signals, data, call, decode)
  }

  /** The delay agent's outcome. */
  function DelayOutcome(signals: Signals, data: ProjectData, call: LlmCall, decode: Decoder): (r: Result<AgentResult, string>)
    ensures OutcomeShape(DelayAgent.AGENT, "delay", true, signals, call, r)
  {
    DelayAgent.AnalyzeSpec(signals, data, call, decode)
  }

  /** The comms agent's outcome. */
  function CommsOutcome(signals: Signals, data: ProjectData, silent: seq<string>, call: LlmCall, decode: Decoder)
    : (r: Result<AgentResult, string>)
    ensures OutcomeShape(CommsAgent.AGENT, "comms", true, signals, call, r)
  {
    CommsAgent.AnalyzeSpec(signals, data, silent, call, decode)
  }

  /**
   * What the `i`-th agent's `analyze` produces on the model reply `call`: a
   * result, or the message of the exception it let through. The workload
   * agent catches its own exceptions; `silent` is the order in which the
   * comms agent visits the silent developers.
   */
  function Outcome(i: nat, signals: Signals, data: ProjectData, ghost rank: map<string, nat>, call: LlmCall,
                   decode: Decoder, silent: seq<string>): (r: Result<AgentResult, string>)
    requires i < |AGENT_NAMES|
    requires Ranked(Adjacency(data.tasks), rank)
    ensures OutcomeShape(AGENT_NAMES[i], AGENT_KEYS[i], i != 1, signals, call, r)
  {
    NamesAndKeys();
    if i == 0 then DependencyOutcome(signals, data, rank, call, decode)
    else if i == 1 then WorkloadOutcome(signals, data, call, decode)
    else if i == 2 then ScopeOutcome(signals, data, call, decode)
    else if i == 3 then DelayOutcome(signals, data, call, decode)
    else CommsOutcome(signals, data, silent, call, decode)
  }

  // ---------------------------------------------------------------------
  // Assembly

  /** The analysis record both the REST route and the live stream deliver. */
  datatype Analysis = Analysis(
    riskScore: real,
    riskLevel: string,
    agentScores: map<string, real>,
    dominantRisk: string,
    interactionPenalty: real,
    agents: seq<AgentResult>,
    signals: SignalResult,
    timestamp: string,
    formulaVersion: string)

  /** The `final_output` literal: the score fields copied from `compute_risk_score`. */
  function Assemble(sr: SignalResult, agents: seq<AgentResult>, data: ProjectData): (a: Analysis)
    ensures a.agents == agents && a.signals == sr
    ensures a.riskScore == ComputeRiskScore(sr.signals).totalScore && 0.0 <= a.riskScore <= 100.0
    ensures a.riskLevel == Level(a.riskScore)
    ensures a.agentScores == AgentScores(sr.signals)
    ensures a.dominantRisk in AGENT_KEYS &&
            forall k :: k in AGENT_KEYS ==> a.agentScores[k] <= a.agentScores[a.dominantRisk]
    ensures a.interactionPenalty == Penalty(sr.signals)
    ensures a.timestamp == data.simulatedNow && a.formulaVersion == FORMULA_VERSION
  {
    var risk := ComputeRiskScore(sr.signals);
    Analysis(risk.totalScore, risk.riskLevel, risk.agentScores, risk.dominantRisk, risk.interactionPenalty,
             agents, sr, data.simulatedNow, FORMULA_VERSION)
  }

  /** The five results in the order dependency, workload, scope, delay, comms. */
  function Entries(signals: Signals, data: ProjectData, ghost rank: map<string, nat>, calls: seq<LlmCall>,
                   decode: Decoder, silent: seq<string>): (agents: seq<AgentResult>)
    requires Ranked(Adjacency(data.tasks), rank)
    requires |calls| == |AGENT_NAMES|
    ensures |agents| == |AGENT_NAMES|
    ensures forall i :: 0 <= i < |AGENT_NAMES| ==>
              agents[i] == SafeAnalyze(MODULES[i], Outcome(i, signals, data, rank, calls[i], decode, silent))
  {
    seq(|AGENT_NAMES|, i requires 0 <= i < |AGENT_NAMES| =>
          SafeAnalyze(MODULES[i], Outcome(i, signals, data, rank, calls[i], decode, silent)))
  }

  /** Every entry, a result or a failure record, is named after its agent, in running order. */
  lemma EntriesNamed(signals: Signals, data: ProjectData, rank: map<string, nat>, calls: seq<LlmCall>,
                     decode: Decoder, silent: seq<string>)
    requires Ranked(Adjacency(data.tasks), rank)
    requires |calls| == |AGENT_NAMES|
    ensures forall i :: 0 <= i < |AGENT_NAMES| ==> Entries(signals, data, rank, calls, decode, silent)[i].agent == AGENT_NAMES[i]
  {
    forall i | 0 <= i < |AGENT_NAMES|
      ensures Entries(signals, data, rank, calls, decode, silent)[i].agent == AGENT_NAMES[i]
    {
      EntryNamed(i, Outcome(i, signals, data, rank, calls[i], decode, silent), signals, calls[i]);
    }
  }

  /** The `i`-th entry, whichever way its agent's outcome went, carries the `i`-th name. */
  lemma EntryNamed(i: nat, o: Result<AgentResult, string>, signals: Signals, call: LlmCall)
    requires i < |AGENT_NAMES|
    requires OutcomeShape(AGENT_NAMES[i], AGENT_KEYS[i], i != 1, signals, call, o)
    ensures SafeAnalyze(MODULES[i], o).agent == AGENT_NAMES[i]
  {
    if o.Failure? {
      FallbackNamesAreAgentNames();
    }
  }

  /** `run_full_analysis`, with `calls[i]` the model reply the `i`-th agent receives. */
  function RunFullAnalysis(data: ProjectData, ghost rank: map<string, nat>, calls: seq<LlmCall>, decode: Decoder,
                           silent: seq<string>): (a: Analysis)
    requires Ranked(Adjacency(data.tasks), rank)
    requires |calls| == |AGENT_NAMES|
    ensures a.signals == ExtractSignals(data, rank)
    ensures a.agents == Entries(a.signals.signals, data, rank, calls, decode, silent)
    ensures a.riskScore == ComputeRiskScore(a.signals.signals).totalScore && a.riskLevel == Level(a.riskScore)
    ensures a.timestamp == data.simulatedNow && a.formulaVersion == "1.0"
  {
    var sr := ExtractSignals(data, rank);
    Assemble(sr, Entries(sr.signals, data, rank, calls, decode, silent), data)
  }

  /** An agent's entry scores zero confidence exactly when its model call raised and it did not catch it. */
  lemma FailedIffRaised(data: ProjectData, rank: map<string, nat>, calls: seq<LlmCall>, decode: Decoder,
                        silent: seq<string>, i: nat)
    requires Ranked(Adjacency(data.tasks), rank)
    requires |calls| == |AGENT_NAMES| && i < |AGENT_NAMES|
    ensures RunFullAnalysis(data, rank, calls, decode, silent).agents[i].confidence == 0.0 <==>
            i != 1 && calls[i].Raised?
  {
    var a := RunFullAnalysis(data, rank, calls, decode, silent);
    var sr := ExtractSignals(data, rank);
    assert a.agents[i] == SafeAnalyze(MODULES[i], Outcome(i, sr.signals, data, rank, calls[i], decode, silent));
    FallbackNamesAreAgentNames();
  }
}
