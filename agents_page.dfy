/**
 * react-app/src/pages/AgentsPage.tsx: the summary counts of critical,
 * warning and healthy agents (by the rounded percentage of each agent's risk
 * contribution, on the badge's cut-offs), the placeholder counts shown
 * without an analysis, and each agent card's lookup of its agent's result.
 */
module AgentsPage {
  import opened Wrappers
  import opened Text
  import opened Records
  import opened SupervisorAgent
  import RiskBadge

  /** An agent card: the agent's short key, its title, and the result id it looks up. */
  datatype AgentCard = AgentCard(key: string, title: string, id: string, href: string)

  const AGENT_CONFIG: seq<AgentCard> := [
    AgentCard("dependency", "Dependency Agent", "dependency_agent", "/dependency"),
    AgentCard("delay", "Delay Agent", "delay_agent", "/delay"),
    AgentCard("workload", "Workload Agent", "workload_agent", "/workload"),
    AgentCard("scope", "Scope Agent", "scope_agent", "/scope"),
    AgentCard("comms", "Comms Agent", "comms_agent", "/comms")]

  // ---------------------------------------------------------------------
  // The agent lookup

  /** `agents.find(a => a.agent === id)`. */
  function Find(agents: seq<AgentResult>, id: string): (r: Option<AgentResult>)
    ensures r.None? <==> forall j :: 0 <= j < |agents| ==> agents[j].agent != id
    ensures r.Some? ==> exists i :: 0 <= i < |agents| && agents[i] == r.value && r.value.agent == id
                                    && forall j :: 0 <= j < i ==> agents[j].agent != id
  {
    if agents == [] then None
    else if agents[0].agent == id then Some(agents[0])
    else
      var rest := Find(agents[1..], id);
      assert rest.Some? ==> exists i :: 0 <= i < |agents[1..]| && agents[1..][i] == rest.value
                                        && rest.value.agent == id && forall j :: 0 <= j < i ==> agents[1..][j].agent != id;
      assert forall j :: 0 <= j < |agents| - 1 ==> agents[1..][j] == agents[j + 1];
      rest
  }

  /** `agentData(id)`: the first result of that agent, none without an analysis. */
  function AgentData(analysis: Option<Analysis>, id: string): Option<AgentResult> {
    if analysis.Some? then Find(analysis.value.agents, id) else None
  }

  /** A card's score: the rounded percentage of its agent's contribution, 0 when the agent is missing. */
  function CardScore(analysis: Option<Analysis>, id: string): (s: int)
    ensures AgentData(analysis, id).None? ==> s == 0
    ensures AgentData(analysis, id).Some? ==> s == JsRound(AgentData(analysis, id).value.riskContribution * 100.0)
  {
    match AgentData(analysis, id)
    case None => 0
    case Some(d) => JsRound(d.riskContribution * 100.0)
  }

  // ---------------------------------------------------------------------
  // The summary counts

  /** `Math.round(a.risk_contribution * 100)`. */
  function Percent(a: AgentResult): int {
    JsRound(a.riskContribution * 100.0)
  }

  predicate IsCritical(a: AgentResult) {
    Percent(a) >= 75
  }

  predicate IsWarning(a: AgentResult) {
    50 <= Percent(a) < 75
  }

  predicate IsHealthy(a: AgentResult) {
    Percent(a) < 50
  }

  /** The bands are the badge's: critical is a CRITICAL card, warning a WARNING one, healthy the two lower levels. */
  lemma BandsAreBadgeLevels(a: AgentResult)
    ensures IsCritical(a) <==> RiskBadge.LevelFromScore(Percent(a) as real) == RiskBadge.Critical
    ensures IsWarning(a) <==> RiskBadge.LevelFromScore(Percent(a) as real) == RiskBadge.Warning
    ensures IsHealthy(a) <==> RiskBadge.LevelFromScore(Percent(a) as real) in {RiskBadge.Moderate, RiskBadge.Healthy}
  {
  }

  /** Every agent is counted exactly once. */
  lemma {:induction false} BandsPartition(agents: seq<AgentResult>)
    ensures Count(agents, IsCritical) + Count(agents, IsWarning) + Count(agents, IsHealthy) == |agents|
  {
    if agents != [] {
      BandsPartition(agents[1..]);
    }
  }

  /** The counts a page shows without an agents array. */
  const PLACEHOLDER_STATS := (2, 1, 2)

  /**
   * `stats`: with an analysis, one pass over its agents counting each in its
   * band; without one, the placeholder counts.
   */
  method Stats(analysis: Option<Analysis>) returns (critical: nat, warning: nat, healthy: nat)
    ensures analysis.None? ==> (critical, warning, healthy) == PLACEHOLDER_STATS
    ensures analysis.Some? ==>
              var agents := analysis.value.agents;
              critical == Count(agents, IsCritical) && warning == Count(agents, IsWarning)
              && healthy == Count(agents, IsHealthy)
  {
    if analysis.None? {
      return 2, 1, 2;
    }
    var agents := analysis.value.agents;
    critical, warning, healthy := 0, 0, 0;
    for i := 0 to |agents|
      invariant critical == Count(agents[..i], IsCritical)
      invariant warning == Count(agents[..i], IsWarning)
      invariant healthy == Count(agents[..i], IsHealthy)
    {
      var a := agents[i];
      assert agents[..i + 1] == agents[..i] + [a];
      CountSnoc(agents[..i], a, IsCritical);
      CountSnoc(agents[..i], a, IsWarning);
      CountSnoc(agents[..i], a, IsHealthy);
      var s := JsRound(a.riskContribution * 100.0);
      if s >= 75 {
        critical := critical + 1;
      } else if s >= 50 {
        warning := warning + 1;
      } else {
        healthy := healthy + 1;
      }
    }
    assert agents[..|agents|] == agents;
  }
}
