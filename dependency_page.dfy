/**
 * react-app/src/pages/DependencyPage.tsx: the fixed five-step mitigation
 * plan, the projected score it promises (the current score lowered by the
 * steps' total impact, never below zero), the placeholder plan shown without
 * an analysis, and the action cards, which all simulate two more developers.
 */
module DependencyPage {
  import opened Wrappers
  import opened SupervisorAgent
  import opened WhatIfEngine
  import opened MeridianApi
  import Routes

  /** A plan step; its icon and detail text are presentation only. */
  datatype PlanStep = PlanStep(priority: string, title: string, impact: int, effort: string)

  const STATIC_STEPS: seq<PlanStep> := [
    PlanStep("IMMEDIATE", "Unblock task_7 (Critical Hub)", -18, "High"),
    PlanStep("IMMEDIATE", "Trigger Emergency Dependency Patch v2.4.1", -12, "Medium"),
    PlanStep("SHORT_TERM", "Rebalance Workload: Move Auth Refactor", -8, "Low"),
    PlanStep("MEDIUM_TERM", "Implement PR Age Automation Alerts", -5, "Low"),
    PlanStep("MEDIUM_TERM", "Sprint Scope Governance Gate", -3, "Low")]

  /** `steps.reduce((s, st) => s + st.impact, 0)`. */
  function TotalImpact(steps: seq<PlanStep>): int {
    if steps == [] then 0 else TotalImpact(steps[..|steps| - 1]) + steps[|steps| - 1].impact
  }

  /** Every step lowers the score, so neither does any part of the plan raise it. */
  lemma {:induction false} ImpactNotPositive(steps: seq<PlanStep>)
    requires forall i :: 0 <= i < |steps| ==> steps[i].impact <= 0
    ensures TotalImpact(steps) <= 0
  {
    if steps != [] {
      ImpactNotPositive(steps[..|steps| - 1]);
    }
  }

  /** The five steps together promise 46 points. */
  lemma StaticImpact()
    ensures TotalImpact(STATIC_STEPS) == -46
  {
    var s := STATIC_STEPS;
    assert TotalImpact(s[..1]) == -18 by { assert s[..1][..0] == []; }
    assert TotalImpact(s[..2]) == -30 by { assert s[..2][..1] == s[..1]; }
    assert TotalImpact(s[..3]) == -38 by { assert s[..3][..2] == s[..2]; }
    assert TotalImpact(s[..4]) == -43 by { assert s[..4][..3] == s[..3]; }
    assert s[..5] == s;
  }

  /** The plan's current score, projected score and level. */
  datatype PlanScore = PlanScore(current: real, projected: real, level: string)

  /** The plan shown when there is no analysis. */
  const STATIC_PLAN := PlanScore(75.0, 29.0, "HIGH")

  /**
   * The plan for a score and level, either possibly missing (then 75 and
   * HIGH): the projection is the score plus the total impact, floored at 0.
   */
  function PlanOf(score: Option<real>, level: Option<string>): (p: PlanScore)
    ensures p.current == (if score.Some? then score.value else 75.0)
    ensures p.level == (if level.Some? then level.value else "HIGH")
    ensures 0.0 <= p.projected
    ensures p.projected == 0.0 || p.projected == p.current - 46.0
    ensures p.current >= 46.0 ==> p.projected == p.current - 46.0
    ensures p.current >= 0.0 ==> p.projected <= p.current
  {
    StaticImpact();
    var current := if score.Some? then score.value else 75.0;
    var total := TotalImpact(STATIC_STEPS);
    var projected := if 0.0 >= current + total as real then 0.0 else current + total as real;
    PlanScore(current, projected, if level.Some? then level.value else "HIGH")
  }

  /** The placeholder plan is the plan of the default score and level. */
  lemma StaticPlanIsDefaultPlan()
    ensures PlanOf(None, None) == STATIC_PLAN
  {
  }

  /** `generateMitigationPlan`'s plan: from the analysis in context, or the placeholder without one. */
  function PlanFor(ctx: Option<Analysis>): (p: PlanScore)
    ensures ctx.None? ==> p == STATIC_PLAN
    ensures ctx.Some? ==> p == PlanOf(Some(ctx.value.riskScore), Some(ctx.value.riskLevel))
  {
    match ctx
    case None => STATIC_PLAN
    case Some(d) => PlanOf(Some(d.riskScore), Some(d.riskLevel))
  }

  /** For a score on the 0-100 scale the projection stays within 0 and the score. */
  lemma PlanWithinScore(a: Analysis)
    requires 0.0 <= a.riskScore <= 100.0
    ensures var p := PlanFor(Some(a));
            0.0 <= p.projected <= p.current == a.riskScore && p.level == a.riskLevel
  {
  }

  // ---------------------------------------------------------------------
  // The page

  class DependencyView {
    var modalOpen: bool
    var generating: bool
    var planScore: Option<PlanScore>

    constructor ()
      ensures !modalOpen && !generating && planScore.None?
    {
      modalOpen := false;
      generating := false;
      planScore := None;
    }

    /** `generateMitigationPlan`: opens the modal and ends, on either path, with the plan set and `generating` false. */
    method GenerateMitigationPlan(ctx: Option<Analysis>)
      modifies this
      ensures modalOpen && !generating && planScore == Some(PlanFor(ctx))
    {
      generating := true;
      modalOpen := true;
      planScore := None;
      match ctx {
        case None =>
          planScore := Some(STATIC_PLAN);
        case Some(data) =>
          planScore := Some(PlanOf(Some(data.riskScore), Some(data.riskLevel)));
      }
      generating := false;
    }
  }

  /** `handleActionCard(title)`: whatever the card, the request adds two developers. */
  function ActionCardMutation(title: string): (m: SimulationMutation)
    ensures KeyedForKind(m) && m.kind == "add_developers" && m.value == 2
  {
    SimulationMutation("add_developers", "count", 2)
  }

  /** Every action card's request makes the engine add exactly two developers. */
  lemma ActionCardAddsTwo(data: Records.ProjectData, title: string)
    ensures ApplyMutation(data, Routes.BuildMutation(RequestOf(ActionCardMutation(title)))) == AddDevelopersSpec(data, 2)
  {
    var m := ActionCardMutation(title);
    RequestAsSent(m);
    Routes.MutationAsRequested(data, RequestOf(m));
  }
}
