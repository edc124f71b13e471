/**
 * react-app/src/components/RiskBadge.tsx: the badge's score bands (25, 50
 * and 75 on a 0-100 scale), their colours, and the style lookup by level
 * name with the STABLE style as the fallback.
 */
module RiskBadge {
  import opened Text

  /** The eight level names a badge can be styled for. */
  datatype Level = Critical | High | Moderate | Warning | Low | Healthy | Stable | Optimal

  function Name(l: Level): string {
    match l
    case Critical => "CRITICAL"
    case High => "HIGH"
    case Moderate => "MODERATE"
    case Warning => "WARNING"
    case Low => "LOW"
    case Healthy => "HEALTHY"
    case Stable => "STABLE"
    case Optimal => "OPTIMAL"
  }

  /** The four levels a score maps to, from worst to best. */
  predicate IsScoreLevel(l: Level) {
    l == Critical || l == Warning || l == Moderate || l == Healthy
  }

  /** `levelFromScore`. */
  function LevelFromScore(score100: real): (l: Level)
    ensures IsScoreLevel(l)
    ensures l == Critical <==> score100 >= 75.0
    ensures l == Warning <==> 50.0 <= score100 < 75.0
    ensures l == Moderate <==> 25.0 <= score100 < 50.0
    ensures l == Healthy <==> score100 < 25.0
  {
    if score100 >= 75.0 then Critical
    else if score100 >= 50.0 then Warning
    else if score100 >= 25.0 then Moderate
    else Healthy
  }

  /** The position of a score level from best (0) to worst (3). */
  function Severity(l: Level): nat
    requires IsScoreLevel(l)
  {
    match l
    case Healthy => 0
    case Moderate => 1
    case Warning => 2
    case Critical => 3
  }

  /** A higher score never yields a better band. */
  lemma LevelMonotone(a: real, b: real)
    requires a <= b
    ensures Severity(LevelFromScore(a)) <= Severity(LevelFromScore(b))
  {
  }

  const RED := "#ef4444"
  const AMBER := "#f59e0b"
  const YELLOW := "#eab308"
  const GREEN := "#22c55e"

  /** `hexFromScore`. */
  function HexFromScore(score100: real): (hex: string)
    ensures hex == RED <==> score100 >= 75.0
    ensures hex == AMBER <==> 50.0 <= score100 < 75.0
    ensures hex == YELLOW <==> 25.0 <= score100 < 50.0
    ensures hex == GREEN <==> score100 < 25.0
  {
    if score100 >= 75.0 then RED
    else if score100 >= 50.0 then AMBER
    else if score100 >= 25.0 then YELLOW
    else GREEN
  }

  /** Band and colour determine each other: two scores share a colour exactly when they share a band. */
  lemma HexMatchesLevel(a: real, b: real)
    ensures HexFromScore(a) == HexFromScore(b) <==> LevelFromScore(a) == LevelFromScore(b)
  {
  }

  // ---------------------------------------------------------------------
  // The style lookup

  const STABLE_STYLE := "bg-slate-700/50 text-slate-300"

  const STYLES: map<string, string> := map[
    "CRITICAL" := "bg-red-500/10 text-red-400 border border-red-500/20",
    "HIGH" := "bg-orange-500/10 text-orange-400 border border-orange-500/20",
    "MODERATE" := "bg-yellow-500/10 text-yellow-400 border border-yellow-500/20",
    "WARNING" := "bg-yellow-500/10 text-yellow-400 border border-yellow-500/20",
    "LOW" := "bg-emerald-500/10 text-emerald-400 border border-emerald-500/20",
    "HEALTHY" := "bg-emerald-500/10 text-emerald-400 border border-emerald-500/20",
    "STABLE" := STABLE_STYLE,
    "OPTIMAL" := "bg-emerald-500/10 text-emerald-400 border border-emerald-500/20"]

  /** `STYLES[level?.toUpperCase()] ?? STYLES.STABLE`. */
  function StyleFor(level: string): (style: string)
    ensures Upper(level) in STYLES ==> style == STYLES[Upper(level)]
    ensures Upper(level) !in STYLES ==> style == STABLE_STYLE
  {
    var key := Upper(level);
    if key in STYLES then STYLES[key] else STYLES["STABLE"]
  }

  /** Every level name is styled by its own entry, and the lookup ignores the case of a-z. */
  lemma StyleOfLevelName(l: Level)
    ensures StyleFor(Name(l)) == STYLES[Name(l)]
    ensures StyleFor(Lower(Name(l))) == STYLES[Name(l)]
  {
    var n := Name(l);
    assert Upper(n) == n;
    LowerThenUpper(n);
  }

  /** ASCII lower-casing of capitals, used only to state the case-insensitivity above. */
  function Lower(s: string): (r: string)
    ensures |r| == |s|
  {
    seq(|s|, i requires 0 <= i < |s| => if 'A' <= s[i] <= 'Z' then (s[i] as int + 32) as char else s[i])
  }

  lemma LowerThenUpper(s: string)
    requires forall i :: 0 <= i < |s| ==> !('a' <= s[i] <= 'z')
    ensures Upper(Lower(s)) == s
  {
  }

  /** A name outside the eight, such as the empty one, falls back to the STABLE style. */
  lemma UnknownNameFallsBack()
    ensures StyleFor("") == STABLE_STYLE
    ensures StyleFor("severe") == STABLE_STYLE
  {
    assert Upper("severe") == "SEVERE";
  }
}
