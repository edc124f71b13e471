/**
 * react-app/src/pages/DelayPage.tsx: three mitigation check boxes, of which
 * only the first one checked is submitted as a simulation; the page keeps the
 * totals, delta and levels of the answer, and counts it as an improvement
 * when the delta is negative.
 */
module DelayPage {
  import opened Wrappers
  import opened WhatIfEngine
  import opened MeridianApi

  datatype Mitigation = Mitigation(title: string, mutation: SimulationMutation)

  const MITIGATION_MAP: seq<Mitigation> := [
    Mitigation("Auto-reassign 4 stale PRs to Level 2 Reviewers", SimulationMutation("close_prs", "pr_count", 4)),
    Mitigation("Trigger Emergency Dependency Patch (v2.4.1)", SimulationMutation("close_prs", "pr_count", 8)),
    Mitigation("Initiate Sprint Scope Reduction protocol", SimulationMutation("remove_scope", "task_count", 5))]

  /** The boxes checked when the page opens. */
  const INITIAL_CHECKED: seq<bool> := [true, true, false]

  // ---------------------------------------------------------------------
  // Check boxes

  /** `toggleCheck(i)`: a copy of the flags with flag i flipped. */
  function Toggled(flags: seq<bool>, i: nat): (r: seq<bool>)
    requires i < |flags|
    ensures |r| == |flags|
    ensures r[i] == !flags[i]
    ensures forall j :: 0 <= j < |flags| && j != i ==> r[j] == flags[j]
  {
    flags[i := !flags[i]]
  }

  /** Toggling the same box twice restores the flags. */
  lemma ToggleTwice(flags: seq<bool>, i: nat)
    requires i < |flags|
    ensures Toggled(Toggled(flags, i), i) == flags
  {
  }

  /** Box i is checked; a flag missing from the array counts as unchecked. */
  predicate Checked(flags: seq<bool>, i: nat) {
    i < |flags| && flags[i]
  }

  /** `MITIGATION_MAP.filter((_, i) => checked[i])`: the checked entries, in list order. */
  function Selected(items: seq<Mitigation>, flags: seq<bool>): (r: seq<Mitigation>)
    ensures |r| <= |items|
  {
    if items == [] then []
    else
      var n := |items| - 1;
      Selected(items[..n], flags) + (if Checked(flags, n) then [items[n]] else [])
  }

  /** The least checked index below n, if any. */
  function FirstChecked(flags: seq<bool>, n: nat): (k: Option<nat>)
    ensures k.Some? ==> k.value < n && Checked(flags, k.value) && forall j :: 0 <= j < k.value ==> !Checked(flags, j)
    ensures k.None? ==> forall j :: 0 <= j < n ==> !Checked(flags, j)
  {
    if n == 0 then None
    else if FirstChecked(flags, n - 1).Some? then FirstChecked(flags, n - 1)
    else if Checked(flags, n - 1) then Some(n - 1)
    else None
  }

  /**
   * The selection is empty exactly when no box is checked, and otherwise
   * starts with the mitigation of the lowest checked box: that is the one
   * submitted, whatever else is checked.
   */
  lemma {:induction false} SelectedHead(items: seq<Mitigation>, flags: seq<bool>)
    ensures var k := FirstChecked(flags, |items|);
            var sel := Selected(items, flags);
            && (sel == [] <==> k.None?)
            && (k.Some? ==> sel[0] == items[k.value])
  {
    if items != [] {
      var n := |items| - 1;
      SelectedHead(items[..n], flags);
      var k := FirstChecked(flags, n);
      if k.Some? {
        assert items[..n][k.value] == items[k.value];
      }
    }
  }

  /** Every entry of the selection is a checked entry, and every checked entry is selected. */
  lemma {:induction false} SelectedMembers(items: seq<Mitigation>, flags: seq<bool>, x: Mitigation)
    ensures x in Selected(items, flags) <==> exists i :: 0 <= i < |items| && Checked(flags, i) && items[i] == x
  {
    if items != [] {
      var n := |items| - 1;
      SelectedMembers(items[..n], flags, x);
      if x in Selected(items[..n], flags) {
        var i :| 0 <= i < n && Checked(flags, i) && items[..n][i] == x;
        assert items[i] == x;
      }
      if exists i :: 0 <= i < |items| && Checked(flags, i) && items[i] == x {
        var i :| 0 <= i < |items| && Checked(flags, i) && items[i] == x;
        if i < n {
          assert items[..n][i] == x;
        }
      }
    }
  }

  // ---------------------------------------------------------------------
  // The result card

  /** The figures the page keeps from a simulation. */
  datatype DelayResult = DelayResult(baseline: real, simulated: real, delta: real, levelBefore: string, levelAfter: string)

  /** The card's figures, copied from the answer. */
  function ResultOf(res: SimulationResult): (r: DelayResult)
    ensures r.baseline == res.baseline.totalScore && r.simulated == res.simulated.totalScore
    ensures r.delta == res.delta.totalScore
    ensures r.levelBefore == res.baseline.riskLevel && r.levelAfter == res.simulated.riskLevel
  {
    DelayResult(res.baseline.totalScore, res.simulated.totalScore, res.delta.totalScore,
                res.baseline.riskLevel, res.simulated.riskLevel)
  }

  /** `improved`: a result whose delta is negative; no result is no improvement. */
  predicate Improved(result: Option<DelayResult>) {
    result.Some? && result.value.delta < 0.0
  }

  /** An improvement is exactly a simulation whose total score went down. */
  lemma ImprovedIffScoreFell(res: SimulationResult)
    requires res.delta.totalScore == res.simulated.totalScore - res.baseline.totalScore
    ensures Improved(Some(ResultOf(res))) <==> res.simulated.totalScore < res.baseline.totalScore
  {
  }

  // ---------------------------------------------------------------------
  // The page; `serve` is the backend's reply to each request

  class DelayView {
    var checked: seq<bool>
    var applying: bool
    var result: Option<DelayResult>

    constructor ()
      ensures checked == INITIAL_CHECKED && !applying && result.None?
    {
      checked := INITIAL_CHECKED;
      applying := false;
      result := None;
    }

    /** `toggleCheck`. */
    method ToggleCheck(i: nat)
      requires i < |checked|
      modifies this
      ensures checked == Toggled(old(checked), i)
      ensures applying == old(applying) && result == old(result)
    {
      checked := Toggled(checked, i);
    }

    /**
     * `applyMitigations`: with nothing selected nothing changes; otherwise
     * the first selected mitigation is simulated, and the result is that
     * answer's figures, or none when the call fails.
     */
    method ApplyMitigations(serve: SimulationMutation -> Reply<SimulationResult>)
      modifies this
      ensures Selected(MITIGATION_MAP, old(checked)) == [] ==>
                checked == old(checked) && applying == old(applying) && result == old(result)
      ensures Selected(MITIGATION_MAP, old(checked)) != [] ==>
                var sent := Selected(MITIGATION_MAP, old(checked))[0].mutation;
                checked == old(checked) && !applying
                && result == (match SimulationValue(MeridianApi.Simulate(serve(sent)))
                              case Some(res) => Some(ResultOf(res))
                              case None => None)
    {
      var selected := Selected(MITIGATION_MAP, checked);
      if |selected| == 0 {
        return;
      }
      applying := true;
      result := None;
      var res := SimulationValue(MeridianApi.Simulate(serve(selected[0].mutation)));
      if res.Some? {
        result := Some(ResultOf(res.value));
      }
      applying := false;
    }
  }

  /** The opening selection submits the four-PR close-out, the first box. */
  lemma InitialSubmission()
    ensures Selected(MITIGATION_MAP, INITIAL_CHECKED) == MITIGATION_MAP[..2]
    ensures Selected(MITIGATION_MAP, INITIAL_CHECKED)[0].mutation == SimulationMutation("close_prs", "pr_count", 4)
  {
    assert MITIGATION_MAP[..2][..1] == MITIGATION_MAP[..1];
    assert MITIGATION_MAP[..3] == MITIGATION_MAP;
  }

  /** Every mitigation names the parameter the server reads for its type. */
  lemma MitigationsKeyed()
    ensures forall i :: 0 <= i < |MITIGATION_MAP| ==> KeyedForKind(MITIGATION_MAP[i].mutation)
  {
  }
}
