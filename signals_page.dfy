/**
 * react-app/src/pages/SignalsPage.tsx: the signal catalogue filtered by the
 * selected agent group, the counts of high-risk, moderate and healthy
 * signals in the analysis, and each signal card's score and raw-value text.
 */
module SignalsPage {
  import opened Wrappers
  import opened Text
  import opened Records
  import opened SupervisorAgent
  import opened MeridianApi
  import RiskBadge

  /** The filter tabs, in order; "all signals" is no active group. */
  const GROUPS: seq<string> := ["dependency", "workload", "scope", "delay", "comms"]

  /** A group filter is active when it is set to a non-empty name. */
  predicate Active(group: Option<string>) {
    group.Some? && group.value != ""
  }

  /** `filter(([key]) => !activeGroup || SIGNAL_META[key]?.group === activeGroup)`. */
  function FilterGroup(metas: seq<SignalMeta>, group: Option<string>): (r: seq<SignalMeta>)
    ensures |r| <= |metas|
    ensures !Active(group) ==> r == metas
  {
    if metas == [] then []
    else
      var n := |metas| - 1;
      FilterGroup(metas[..n], group) + (if !Active(group) || metas[n].group == group.value then [metas[n]] else [])
  }

  /** With a group set, the filter keeps exactly the entries of that group. */
  lemma {:induction false} FilterMembers(metas: seq<SignalMeta>, g: string, m: SignalMeta)
    requires g != ""
    ensures m in FilterGroup(metas, Some(g)) <==> m in metas && m.group == g
  {
    if metas != [] {
      var n := |metas| - 1;
      FilterMembers(metas[..n], g, m);
      assert metas == metas[..n] + [metas[n]];
    }
  }

  /** Every tab shows a part of the catalogue; together the five show all of it. */
  lemma EveryMetaInItsTab(m: SignalMeta)
    requires m in SIGNAL_META
    ensures m.group in GROUPS
    ensures m in FilterGroup(SIGNAL_META, Some(m.group))
  {
    SignalMetaShape();
    FilterMembers(SIGNAL_META, m.group, m);
  }

  // ---------------------------------------------------------------------
  // The counts

  /** `Object.values(signals).filter(s => s.score >= 0.75).length`. */
  function HighRisk(signals: Signals): nat {
    |set k | k in signals && signals[k].score >= 0.75|
  }

  /** `... s.score >= 0.5 && s.score < 0.75 ...`. */
  function Moderate(signals: Signals): nat {
    |set k | k in signals && 0.5 <= signals[k].score < 0.75|
  }

  /** `... s.score < 0.5 ...`. */
  function Healthy(signals: Signals): nat {
    |set k | k in signals && signals[k].score < 0.5|
  }

  /** The three counts split the signals present: each is counted exactly once. */
  lemma CountsPartition(signals: Signals)
    ensures HighRisk(signals) + Moderate(signals) + Healthy(signals) == |signals|
  {
    var h := set k | k in signals && signals[k].score >= 0.75;
    var m := set k | k in signals && 0.5 <= signals[k].score < 0.75;
    var l := set k | k in signals && signals[k].score < 0.5;
    assert h !! m && h !! l && m !! l;
    assert h + m + l == signals.Keys;
    assert |h + m| == |h| + |m|;
    assert |(h + m) + l| == |h + m| + |l|;
  }

  /** `analysis?.signals?.signals ?? {}`: the page's signals, none without an analysis. */
  function PageSignals(analysis: Option<Analysis>): (s: Signals)
    ensures analysis.None? ==> s == map[]
  {
    if analysis.Some? then analysis.value.signals.signals else map[]
  }

  /** `totalSignals` counts the catalogue, with or without an analysis; the band counts are 0 without one. */
  lemma TotalAndEmptyCounts(analysis: Option<Analysis>)
    ensures |SIGNAL_META| == 15
    ensures analysis.None? ==> HighRisk(PageSignals(analysis)) == Moderate(PageSignals(analysis))
                               == Healthy(PageSignals(analysis)) == 0
  {
    SignalMetaShape();
    CountsPartition(PageSignals(analysis));
  }

  // ---------------------------------------------------------------------
  // A signal card

  /** The card's score: the rounded percentage of the signal's score, 0 for a missing signal. */
  function CardScore(signals: Signals, key: string): (s: int)
    ensures key !in signals ==> s == 0
    ensures key in signals && 0.0 <= signals[key].score <= 1.0 ==> 0 <= s <= 100
    ensures key in signals ==> signals[key].score * 100.0 - 0.5 < s as real <= signals[key].score * 100.0 + 0.5
  {
    if key in signals then JsRound(signals[key].score * 100.0) else 0
  }

  /** The card's colour, the badge's for the card's score. */
  function CardHex(signals: Signals, key: string): string {
    RiskBadge.HexFromScore(CardScore(signals, key) as real)
  }

  /** A missing signal reads as the green of a zero score. */
  lemma MissingSignalIsGreen(signals: Signals, key: string)
    requires key !in signals
    ensures CardHex(signals, key) == RiskBadge.GREEN
  {
  }

  /** A raw-value text: a dash, a percentage, or a value with its unit (whose decimal rendering is the browser's). */
  datatype RawText = Dash | PercentText(text: string) | WithUnit(value: real, unit: string)

  /** `Number.isInteger`. */
  predicate IsInteger(x: real) {
    x.Floor as real == x
  }

  /** Strictly between 0 and 1 there is no integer, so that test in the rule never decides. */
  lemma FractionNotInteger(x: real)
    ensures 0.0 < x < 1.0 ==> !IsInteger(x)
  {
    if 0.0 < x < 1.0 {
      assert x.Floor == 0;
    }
  }

  /** The text of a present value: a percentage for a value strictly between 0 and 1, else the value and unit. */
  function RawTextOf(raw: real, unit: string): (d: RawText)
    ensures d.PercentText? <==> 0.0 < raw < 1.0
    ensures d.PercentText? ==> d.text == JsFixed1(raw * 100.0) + "%"
    ensures d.WithUnit? ==> d.value == raw && d.unit == unit
    ensures !d.Dash?
  {
    FractionNotInteger(raw);
    if 0.0 < raw < 1.0 && !IsInteger(raw) then PercentText(JsFixed1(raw * 100.0) + "%") else WithUnit(raw, unit)
  }

  /** `displayVal`: a dash for a missing signal, otherwise the text of its value in the catalogue unit. */
  function DisplayValue(signals: Signals, meta: SignalMeta): (d: RawText)
    ensures d.Dash? <==> meta.key !in signals
    ensures meta.key in signals ==> d == RawTextOf(signals[meta.key].value, meta.unit)
  {
    if meta.key in signals then RawTextOf(signals[meta.key].value, meta.unit) else Dash
  }
}
