/**
 * react-app/src/utils/riskUtils.ts: a second copy of the badge's
 * `levelFromScore` and `hexFromScore`, kept apart so that the badge module
 * exports only components. The copies are written out again here and shown
 * to agree with the badge's at every score.
 */
module RiskUtils {
  import RiskBadge

  /** `levelFromScore`: total on every score, one of four levels. */
  function LevelFromScore(score100: real): (l: RiskBadge.Level)
    ensures RiskBadge.IsScoreLevel(l)
    ensures l == RiskBadge.Critical <==> score100 >= 75.0
    ensures l == RiskBadge.Healthy <==> score100 < 25.0
  {
    if score100 >= 75.0 then RiskBadge.Critical
    else if score100 >= 50.0 then RiskBadge.Warning
    else if score100 >= 25.0 then RiskBadge.Moderate
    else RiskBadge.Healthy
  }

  /** `hexFromScore`: total on every score, one of four colours. */
  function HexFromScore(score100: real): (hex: string)
    ensures hex in {RiskBadge.RED, RiskBadge.AMBER, RiskBadge.YELLOW, RiskBadge.GREEN}
    ensures hex == RiskBadge.RED <==> score100 >= 75.0
    ensures hex == RiskBadge.GREEN <==> score100 < 25.0
  {
    if score100 >= 75.0 then "#ef4444"
    else if score100 >= 50.0 then "#f59e0b"
    else if score100 >= 25.0 then "#eab308"
    else "#22c55e"
  }

  /** The two copies give the same level and the same colour for every score. */
  lemma CopiesAgree(score100: real)
    ensures LevelFromScore(score100) == RiskBadge.LevelFromScore(score100)
    ensures HexFromScore(score100) == RiskBadge.HexFromScore(score100)
  {
  }
}
