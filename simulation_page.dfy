/**
 * react-app/src/pages/SimulationPage.tsx: the four what-if sliders, the
 * mutation each one sends, and the run that submits them one after the other,
 * records one scenario row per slider and keeps the first successful result
 * as the hero card.
 */
module SimulationPage {
  import opened Wrappers
  import opened Text
  import opened WhatIfEngine
  import opened MeridianApi

  /**
   * A slider: its id and label, its range and default, the mutation type
   * and parameter it drives, and how its raw value becomes the parameter
   * (`factor` wins over `deriveFn`; with neither the raw value is sent).
   */
  datatype SliderConfig = SliderConfig(
    id: string,
    title: string,
    min: int,
    max: int,
    defaultVal: int,
    mutType: string,
    paramKey: string,
    factor: Option<int>,
    deriveFn: Option<int -> int>)

  function Max(a: int, b: int): int {
    if a >= b then a else b
  }

  /** The scope slider's percentage as a task count: `Math.max(1, Math.round(v / 5))`. */
  function ScopeTasks(v: int): int {
    Max(1, JsRound(v as real / 5.0))
  }

  /** The PR slider's hours as a PR count: `Math.max(1, Math.round(v / 24))`. */
  function StalePrs(v: int): int {
    Max(1, JsRound(v as real / 24.0))
  }

  const SLIDER_CONFIG: seq<SliderConfig> := [
    SliderConfig("devs", "Add Developers", 0, 10, 4, "add_developers", "count", None, None),
    SliderConfig("deadline", "Extend Deadline", 0, 8, 2, "extend_deadline", "days", Some(7), None),
    SliderConfig("scope", "Remove Scope", 0, 50, 15, "remove_scope", "task_count", None, Some(ScopeTasks)),
    SliderConfig("prs", "Close PRs Threshold", 12, 168, 48, "close_prs", "pr_count", None, Some(StalePrs))]

  /** The slider values hold an entry for every slider. */
  predicate HasAllSliders(vals: map<string, int>) {
    forall i :: 0 <= i < |SLIDER_CONFIG| ==> SLIDER_CONFIG[i].id in vals
  }

  /** The initial slider values: each slider at its default. */
  function DefaultVals(): (vals: map<string, int>)
    ensures HasAllSliders(vals)
    ensures forall i :: 0 <= i < |SLIDER_CONFIG| ==> vals[SLIDER_CONFIG[i].id] == SLIDER_CONFIG[i].defaultVal
  {
    map["devs" := 4, "deadline" := 2, "scope" := 15, "prs" := 48]
  }

  /** `buildMutation`: the slider's type and parameter key, with the value its raw setting maps to. */
  function BuildMutation(cfg: SliderConfig, vals: map<string, int>): (m: SimulationMutation)
    requires cfg.id in vals
    ensures m.kind == cfg.mutType && m.paramKey == cfg.paramKey
  {
    var raw := vals[cfg.id];
    var v := if cfg.factor.Some? && cfg.factor.value != 0 then raw * cfg.factor.value
             else if cfg.deriveFn.Some? then cfg.deriveFn.value(raw)
             else raw;
    SimulationMutation(cfg.mutType, cfg.paramKey, v)
  }

  /**
   * What each slider sends: the developer count as set, the deadline in
   * days (weeks times 7), and task and PR counts that are never below 1;
   * each names the parameter the server reads for its type.
   */
  lemma SliderMutations(vals: map<string, int>)
    requires HasAllSliders(vals)
    ensures BuildMutation(SLIDER_CONFIG[0], vals) == SimulationMutation("add_developers", "count", vals["devs"])
    ensures BuildMutation(SLIDER_CONFIG[1], vals) == SimulationMutation("extend_deadline", "days", vals["deadline"] * 7)
    ensures BuildMutation(SLIDER_CONFIG[2], vals)
            == SimulationMutation("remove_scope", "task_count", Max(1, JsRound(vals["scope"] as real / 5.0)))
    ensures BuildMutation(SLIDER_CONFIG[3], vals)
            == SimulationMutation("close_prs", "pr_count", Max(1, JsRound(vals["prs"] as real / 24.0)))
    ensures BuildMutation(SLIDER_CONFIG[2], vals).value >= 1 && BuildMutation(SLIDER_CONFIG[3], vals).value >= 1
    ensures forall i :: 0 <= i < |SLIDER_CONFIG| ==> KeyedForKind(BuildMutation(SLIDER_CONFIG[i], vals))
  {
    assert SLIDER_CONFIG[0].id == "devs" && SLIDER_CONFIG[1].id == "deadline";
    assert SLIDER_CONFIG[2].id == "scope" && SLIDER_CONFIG[3].id == "prs";
  }

  // ---------------------------------------------------------------------
  // The run; `serve` is the backend's reply to each request

  /** A scenario row: the result of a call that succeeded, or an error mark. */
  datatype ScenarioResult = Succeeded(name: string, result: SimulationResult) | Errored(name: string)

  /** The row one slider's call produces. */
  function ScenarioOf(cfg: SliderConfig, vals: map<string, int>, serve: SimulationMutation -> Reply<SimulationResult>)
    : (s: ScenarioResult)
    requires cfg.id in vals
    ensures s.name == cfg.title
    ensures s.Succeeded? <==> SimulationValue(MeridianApi.Simulate(serve(BuildMutation(cfg, vals)))).Some?
  {
    match SimulationValue(MeridianApi.Simulate(serve(BuildMutation(cfg, vals))))
    case Some(r) => Succeeded(cfg.title, r)
    case None => Errored(cfg.title)
  }

  /** The rows for a list of sliders, in list order. */
  function Scenarios(cfgs: seq<SliderConfig>, vals: map<string, int>,
                     serve: SimulationMutation -> Reply<SimulationResult>): (rows: seq<ScenarioResult>)
    requires forall i :: 0 <= i < |cfgs| ==> cfgs[i].id in vals
    ensures |rows| == |cfgs|
  {
    if cfgs == [] then []
    else Scenarios(cfgs[..|cfgs| - 1], vals, serve) + [ScenarioOf(cfgs[|cfgs| - 1], vals, serve)]
  }

  /** Row i belongs to slider i. */
  lemma {:induction false} ScenariosAt(cfgs: seq<SliderConfig>, vals: map<string, int>,
                                       serve: SimulationMutation -> Reply<SimulationResult>, i: nat)
    requires forall k :: 0 <= k < |cfgs| ==> cfgs[k].id in vals
    requires i < |cfgs|
    ensures Scenarios(cfgs, vals, serve)[i] == ScenarioOf(cfgs[i], vals, serve)
    decreases |cfgs|
  {
    if i < |cfgs| - 1 {
      ScenariosAt(cfgs[..|cfgs| - 1], vals, serve, i);
    }
  }

  /** `first`: unset until a call succeeds, then that call's result. */
  function FirstSuccess(rows: seq<ScenarioResult>): Option<SimulationResult> {
    if rows == [] then None
    else
      var earlier := FirstSuccess(rows[..|rows| - 1]);
      if earlier.Some? then earlier
      else if rows[|rows| - 1].Succeeded? then Some(rows[|rows| - 1].result)
      else None
  }

  /** The hero is the result of the first successful row, and there is none only when every row is an error. */
  lemma {:induction false} FirstSuccessIsFirst(rows: seq<ScenarioResult>)
    ensures var h := FirstSuccess(rows);
            && (h.None? <==> forall j :: 0 <= j < |rows| ==> rows[j].Errored?)
            && (h.Some? ==> exists i :: 0 <= i < |rows| && rows[i].Succeeded? && rows[i].result == h.value
                                       && forall j :: 0 <= j < i ==> rows[j].Errored?)
  {
    if rows != [] {
      var front := rows[..|rows| - 1];
      FirstSuccessIsFirst(front);
      assert forall j :: 0 <= j < |front| ==> rows[j] == front[j];
      if FirstSuccess(front).Some? {
        var i :| 0 <= i < |front| && front[i].Succeeded? && front[i].result == FirstSuccess(front).value
                 && forall j :: 0 <= j < i ==> front[j].Errored?;
        assert rows[i] == front[i];
      } else if rows[|rows| - 1].Succeeded? {
        assert forall j :: 0 <= j < |rows| - 1 ==> rows[j].Errored?;
      }
    }
  }

  /**
   * `runSimulations`: each slider's request in turn, in slider order, one
   * row per slider, and the first success as the hero.
   */
  method RunSimulations(vals: map<string, int>, serve: SimulationMutation -> Reply<SimulationResult>)
    returns (hero: Option<SimulationResult>, scenarios: seq<ScenarioResult>)
    requires HasAllSliders(vals)
    ensures scenarios == Scenarios(SLIDER_CONFIG, vals, serve)
    ensures hero == FirstSuccess(scenarios)
  {
    var results: seq<ScenarioResult> := [];
    var first: Option<SimulationResult> := None;
    for i := 0 to |SLIDER_CONFIG|
      invariant results == Scenarios(SLIDER_CONFIG[..i], vals, serve)
      invariant first == FirstSuccess(results)
    {
      var cfg := SLIDER_CONFIG[i];
      assert SLIDER_CONFIG[..i + 1][..i] == SLIDER_CONFIG[..i];
      var res := SimulationValue(MeridianApi.Simulate(serve(BuildMutation(cfg, vals))));
      match res {
        case Some(r) =>
          results := results + [Succeeded(cfg.title, r)];
          if first.None? {
            first := Some(r);
          }
        case None =>
          results := results + [Errored(cfg.title)];
      }
    }
    assert SLIDER_CONFIG[..|SLIDER_CONFIG|] == SLIDER_CONFIG;
    hero := first;
    scenarios := results;
  }

  // ---------------------------------------------------------------------
  // The hero card

  /** The displayed score change: the hero's, or 0 without one. */
  function HeroDelta(hero: Option<SimulationResult>): real {
    if hero.Some? then hero.value.delta.totalScore else 0.0
  }

  /** The displayed simulated score: the hero's, or 94.2 without one. */
  function HeroScore(hero: Option<SimulationResult>): real {
    if hero.Some? then hero.value.simulated.totalScore else 94.2
  }

  /** A run in which every request fails falls back to the placeholder change 0 and score 94.2. */
  lemma AllFailedShowsPlaceholder(vals: map<string, int>, serve: SimulationMutation -> Reply<SimulationResult>)
    requires HasAllSliders(vals)
    requires forall i :: 0 <= i < |SLIDER_CONFIG| ==> SimulationValue(MeridianApi.Simulate(serve(BuildMutation(SLIDER_CONFIG[i], vals)))).None?
    ensures var hero := FirstSuccess(Scenarios(SLIDER_CONFIG, vals, serve));
            hero.None? && HeroDelta(hero) == 0.0 && HeroScore(hero) == 94.2
  {
    var rows := Scenarios(SLIDER_CONFIG, vals, serve);
    forall j | 0 <= j < |rows|
      ensures rows[j].Errored?
    {
      ScenariosAt(SLIDER_CONFIG, vals, serve, j);
    }
    FirstSuccessIsFirst(rows);
  }
}
