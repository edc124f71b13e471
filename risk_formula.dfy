/**
 * core/risk_formula.py: `compute_risk_score`. Five agent scores (each the mean
 * of three signal scores), a weighted sum, two interaction penalties, a clamp
 * to [0, 1], scaling to [0, 100] rounded to two decimals, and the risk band.
 */
module RiskFormula {
  import opened Records

  const FORMULA_VERSION := "1.0"

  /** agent_scores: one mean per agent, three signals each, in `AGENT_KEYS` order. */
  function AgentScores(signals: Signals): (m: map<string, real>)
    ensures m.Keys == set k | k in AGENT_KEYS
    ensures m["dependency"] == MeanScore(signals, BLOCKED_TASK_RATIO, CRITICAL_PATH_DEPTH, DEPENDENCY_CENTRALITY_MAX)
    ensures m["workload"] == MeanScore(signals, OVERLOADED_DEV_RATIO, TASK_CONCENTRATION_INDEX, UNASSIGNED_TASK_RATIO)
    ensures m["scope"] == MeanScore(signals, MID_SPRINT_TASK_ADDITIONS, SCOPE_GROWTH_RATE, OUT_OF_SCOPE_PR_COUNT)
    ensures m["delay"] == MeanScore(signals, OVERDUE_TASK_RATIO, STALE_TASK_RATIO, AVG_PR_AGE_DAYS)
    ensures m["comms"] == MeanScore(signals, SILENT_DEV_RATIO, UNANSWERED_THREAD_RATIO, ESCALATION_KEYWORD_COUNT)
  {
    map[
      "dependency" := MeanScore(signals, BLOCKED_TASK_RATIO, CRITICAL_PATH_DEPTH, DEPENDENCY_CENTRALITY_MAX),
      "workload" := MeanScore(signals, OVERLOADED_DEV_RATIO, TASK_CONCENTRATION_INDEX, UNASSIGNED_TASK_RATIO),
      "scope" := MeanScore(signals, MID_SPRINT_TASK_ADDITIONS, SCOPE_GROWTH_RATE, OUT_OF_SCOPE_PR_COUNT),
      "delay" := MeanScore(signals, OVERDUE_TASK_RATIO, STALE_TASK_RATIO, AVG_PR_AGE_DAYS),
      "comms" := MeanScore(signals, SILENT_DEV_RATIO, UNANSWERED_THREAD_RATIO, ESCALATION_KEYWORD_COUNT)
    ]
  }

  /** Every signal score lies in [0, 1] (what `extract_signals` guarantees). */
  predicate ScoresInRange(signals: Signals) {
    forall k :: k in signals ==> 0.0 <= signals[k].score <= 1.0
  }

  /** With scores in [0, 1], every agent score is in [0, 1] too. */
  lemma AgentScoresInRange(signals: Signals)
    requires ScoresInRange(signals)
    ensures forall k :: k in AgentScores(signals) ==> 0.0 <= AgentScores(signals)[k] <= 1.0
  {
    var m := AgentScores(signals);
    forall k | k in m ensures 0.0 <= m[k] <= 1.0 {
      MeanInRange(signals);
    }
  }

  lemma MeanInRange(signals: Signals)
    requires ScoresInRange(signals)
    ensures forall a, b, c :: 0.0 <= MeanScore(signals, a, b, c) <= 1.0
  {
    forall a, b, c ensures 0.0 <= MeanScore(signals, a, b, c) <= 1.0 {
      assert 0.0 <= ScoreOf(signals, a) <= 1.0;
      assert 0.0 <= ScoreOf(signals, b) <= 1.0;
      assert 0.0 <= ScoreOf(signals, c) <= 1.0;
    }
  }

  /** The aggregation weights. */
  const WEIGHTS: map<string, real> :=
    map["dependency" := 0.30, "delay" := 0.25, "workload" := 0.20, "scope" := 0.15, "comms" := 0.10]

  lemma WeightsSumToOne()
    ensures WEIGHTS.Keys == set k | k in AGENT_KEYS
    ensures forall k :: k in WEIGHTS ==> WEIGHTS[k] > 0.0
    ensures WEIGHTS["dependency"] + WEIGHTS["workload"] + WEIGHTS["scope"] + WEIGHTS["delay"] + WEIGHTS["comms"] == 1.0
  {
  }

  /** The weight of each agent key. */
  lemma WeightValues()
    ensures WEIGHTS["dependency"] == 0.30 && WEIGHTS["workload"] == 0.20 && WEIGHTS["scope"] == 0.15
    ensures WEIGHTS["delay"] == 0.25 && WEIGHTS["comms"] == 0.10
  {
  }

  /** The weighted sum of the five agent scores, given in key order. */
  function Weighted(dependency: real, workload: real, scope: real, delay: real, comms: real): (b: real)
    ensures (0.0 <= dependency <= 1.0 && 0.0 <= workload <= 1.0 && 0.0 <= scope <= 1.0 && 0.0 <= delay <= 1.0
             && 0.0 <= comms <= 1.0) ==> 0.0 <= b <= 1.0
    ensures dependency == workload == scope == delay == comms == 1.0 ==> b == 1.0
  {
    WeightValues();
    dependency * WEIGHTS["dependency"] + workload * WEIGHTS["workload"]
    + scope * WEIGHTS["scope"] + delay * WEIGHTS["delay"] + comms * WEIGHTS["comms"]
  }

  /** base_score: the weighted sum over the agent keys. */
  function BaseScore(scores: map<string, real>): (b: real)
    requires forall k :: k in AGENT_KEYS ==> k in scores
    ensures (forall k :: k in AGENT_KEYS ==> 0.0 <= scores[k] <= 1.0) ==> 0.0 <= b <= 1.0
    ensures (forall k :: k in AGENT_KEYS ==> scores[k] == 1.0) ==> b == 1.0
  {
    KeysListed();
    Weighted(scores["dependency"], scores["workload"], scores["scope"], scores["delay"], scores["comms"])
  }

  predicate PathOverload(signals: Signals) {
    ScoreOf(signals, CRITICAL_PATH_DEPTH) > 0.70 && ScoreOf(signals, OVERLOADED_DEV_RATIO) > 0.60
  }

  predicate DelaySilence(signals: Signals) {
    ScoreOf(signals, OVERDUE_TASK_RATIO) > 0.70 && ScoreOf(signals, SILENT_DEV_RATIO) > 0.50
  }

  /** The interaction penalty: 0.05 for critical path with overload, 0.04 for delay with silence, capped at 0.09. */
  function Penalty(signals: Signals): (p: real)
    ensures p == 0.0 || p == 0.04 || p == 0.05 || p == 0.09
    ensures PathOverload(signals) <==> (p == 0.05 || p == 0.09)
    ensures DelaySilence(signals) <==> (p == 0.04 || p == 0.09)
  {
    var p1 := if PathOverload(signals) then 0.05 else 0.0;
    var p2 := p1 + (if DelaySilence(signals) then 0.04 else 0.0);
    if p2 < 0.09 then p2 else 0.09
  }

  /** `max(0.0, min(v, 1.0))`. */
  function Clamp(v: real): (r: real)
    ensures 0.0 <= r <= 1.0
    ensures 0.0 <= v <= 1.0 ==> r == v
  {
    if v < 0.0 then 0.0 else if v > 1.0 then 1.0 else v
  }

  /** `round(v, 2)`: the nearest multiple of 0.01, halves rounded up. */
  function Round2(v: real): (r: real)
    ensures v - 0.005 < r <= v + 0.005
    ensures (r * 100.0).Floor as real == r * 100.0
  {
    var n := (v * 100.0 + 0.5).Floor;
    assert (n as real / 100.0) * 100.0 == n as real;
    n as real / 100.0
  }

  /** Rounding a value of [0, 100] to hundredths stays in [0, 100]. */
  lemma Round2InRange(v: real)
    requires 0.0 <= v <= 100.0
    ensures 0.0 <= Round2(v) <= 100.0
  {
    var n := (v * 100.0 + 0.5).Floor;
    assert 0 <= n <= 10000;
  }

  /** The backend's risk band. */
  function Level(total: real): (level: string)
    ensures level in {"LOW", "MODERATE", "HIGH", "CRITICAL"}
    ensures level == "LOW" <==> total < 40.0
    ensures level == "MODERATE" <==> 40.0 <= total < 60.0
    ensures level == "HIGH" <==> 60.0 <= total < 75.0
    ensures level == "CRITICAL" <==> 75.0 <= total
  {
    if total < 40.0 then "LOW"
    else if total < 60.0 then "MODERATE"
    else if total < 75.0 then "HIGH"
    else "CRITICAL"
  }

  function LevelRank(level: string): nat {
    if level == "LOW" then 0 else if level == "MODERATE" then 1 else if level == "HIGH" then 2 else 3
  }

  /** A higher total never gives a lower band. */
  lemma LevelMonotone(a: real, b: real)
    requires a <= b
    ensures LevelRank(Level(a)) <= LevelRank(Level(b))
  {
  }

  /**
   * `max(keys, key=scores.get)`: scanning in order, a key replaces the current
   * best only when strictly greater, so ties go to the earliest key.
   */
  function Dominant(keys: seq<string>, scores: map<string, real>): (d: string)
    requires keys != [] && forall k :: k in keys ==> k in scores
    ensures d in keys
    ensures forall k :: k in keys ==> scores[k] <= scores[d]
    ensures exists i :: 0 <= i < |keys| && keys[i] == d && forall j :: 0 <= j < i ==> scores[keys[j]] < scores[d]
    decreases |keys|
  {
    if |keys| == 1 then keys[0]
    else
      var init := keys[..|keys| - 1];
      var last := keys[|keys| - 1];
      assert keys == init + [last];
      var best := Dominant(init, scores);
      if scores[last] > scores[best] then
        assert forall j :: 0 <= j < |init| ==> scores[keys[j]] < scores[last] by {
          forall j | 0 <= j < |init| ensures scores[keys[j]] < scores[last] {
            assert keys[j] == init[j] && init[j] in init;
          }
        }
        last
      else
        var i :| 0 <= i < |init| && init[i] == best && forall j :: 0 <= j < i ==> scores[init[j]] < scores[best];
        assert keys[i] == best && forall j :: 0 <= j < i ==> scores[keys[j]] < scores[best];
        best
  }

  datatype RiskScore = RiskScore(
    totalScore: real,
    riskLevel: string,
    agentScores: map<string, real>,
    dominantRisk: string,
    interactionPenalty: real,
    formulaVersion: string)

  /** total_score: `round(max(0.0, min(base + penalty, 1.0)) * 100.0, 2)`. */
  function TotalScore(base: real, penalty: real): (t: real)
    ensures 0.0 <= t <= 100.0
    ensures Clamp(base + penalty) * 100.0 - 0.005 < t <= Clamp(base + penalty) * 100.0 + 0.005
  {
    var clamped := Clamp(base + penalty);
    Round2InRange(clamped * 100.0);
    Round2(clamped * 100.0)
  }

  /** `compute_risk_score(signal_result)`. */
  function ComputeRiskScore(signals: Signals): (r: RiskScore)
    ensures r.agentScores == AgentScores(signals)
    ensures r.interactionPenalty == Penalty(signals)
    ensures r.totalScore == TotalScore(BaseScore(r.agentScores), r.interactionPenalty)
    ensures 0.0 <= r.totalScore <= 100.0
    ensures r.riskLevel == Level(r.totalScore)
    ensures r.dominantRisk in AGENT_KEYS
    ensures forall k :: k in AGENT_KEYS ==> r.agentScores[k] <= r.agentScores[r.dominantRisk]
    ensures r.formulaVersion == "1.0"
  {
    var scores := AgentScores(signals);
    var penalty := Penalty(signals);
    var total := TotalScore(BaseScore(scores), penalty);
    RiskScore(total, Level(total), scores, Dominant(AGENT_KEYS, scores), penalty, FORMULA_VERSION)
  }

  /** Ties for the maximum go to the earliest agent in dependency, workload, scope, delay, comms order. */
  lemma DominantFirstOfTies(signals: Signals, i: nat)
    requires i < |AGENT_KEYS|
    requires AGENT_KEYS[i] == ComputeRiskScore(signals).dominantRisk
    ensures forall j :: 0 <= j < i ==> AgentScores(signals)[AGENT_KEYS[j]] < AgentScores(signals)[AGENT_KEYS[i]]
  {
    var scores := AgentScores(signals);
    KeysListed();
    forall j | 0 <= j < |AGENT_KEYS| && AGENT_KEYS[j] == AGENT_KEYS[i]
      ensures j == i
    {
      KeysDistinct(j, i);
    }
    DominantEarliest(AGENT_KEYS, scores, i);
  }

  /** The key chosen is the first of those with the highest score. */
  lemma DominantEarliest(keys: seq<string>, scores: map<string, real>, i: nat)
    requires keys != [] && forall k :: k in keys ==> k in scores
    requires i < |keys| && keys[i] == Dominant(keys, scores)
    requires forall j :: 0 <= j < |keys| && keys[j] == keys[i] ==> j == i
    ensures forall j :: 0 <= j < i ==> scores[keys[j]] < scores[keys[i]]
  {
    var d := Dominant(keys, scores);
    var i' :| 0 <= i' < |keys| && keys[i'] == d && forall j :: 0 <= j < i' ==> scores[keys[j]] < scores[d];
    assert i' == i;
  }
}
