/**
 * react-app/src/pages/SignupPage.tsx: the sign-up form's validation, and the
 * progress ring that follows a valid submission: every tick adds a step that
 * depends on the band the progress is in, caps it at 100 and labels it with
 * the last stage reached; at 100 the ticking stops and the label reads ready.
 */
module SignupPage {
  import opened Wrappers

  datatype Stage = Stage(at: real, title: string)

  const STAGES: seq<Stage> := [
    Stage(0.0, "Creating Account"),
    Stage(20.0, "Provisioning Workspace"),
    Stage(45.0, "Initializing Agents"),
    Stage(70.0, "Securing Connection"),
    Stage(90.0, "Almost Ready")]

  const REQUIRED_ERROR := "All fields are required."
  const LENGTH_ERROR := "Password must be at least 6 characters."
  const READY_LABEL := "Ready ✓"
  const FIRST_LABEL := "Creating Account"

  // ---------------------------------------------------------------------
  // Validation

  /**
   * The form's error, if any: a missing field first, then a password shorter
   * than six characters; none for a form that passes both.
   */
  function Validate(name: string, email: string, password: string): (e: Option<string>)
    ensures e == Some(REQUIRED_ERROR) <==> name == "" || email == "" || password == ""
    ensures e == Some(LENGTH_ERROR) <==> name != "" && email != "" && password != "" && |password| < 6
    ensures e.None? <==> name != "" && email != "" && |password| >= 6
  {
    if name == "" || email == "" || password == "" then Some(REQUIRED_ERROR)
    else if |password| < 6 then Some(LENGTH_ERROR)
    else None
  }

  // ---------------------------------------------------------------------
  // The progress tick

  /** The step for the band the progress is in. */
  function StepFor(pct: real): (s: real)
    ensures 0.8 <= s <= 2.0
  {
    if pct < 30.0 then 2.0 else if pct < 75.0 then 1.0 else if pct < 95.0 then 1.5 else 0.8
  }

  /** One tick: the progress plus its step, capped at 100. */
  function Next(pct: real): (p: real)
    ensures p <= 100.0
    ensures pct < 100.0 ==> pct < p
    ensures p == 100.0 || p >= pct + 0.8
  {
    var q := pct + StepFor(pct);
    if 100.0 < q then 100.0 else q
  }

  /** The progress after k ticks. */
  function Iterate(pct: real, k: nat): real
    decreases k
  {
    if k == 0 then pct else Iterate(Next(pct), k - 1)
  }

  /** An upper bound on the ticks still to come: no step is smaller than 0.8. */
  function Remaining(pct: real): nat {
    if pct >= 100.0 then 0 else ((100.0 - pct) * 1.25).Floor + 1
  }

  /** Each tick below 100 uses up at least one of the remaining ticks. */
  lemma RemainingFalls(pct: real)
    requires pct < 100.0
    ensures Remaining(Next(pct)) < Remaining(pct)
  {
    var p := Next(pct);
    if p < 100.0 {
      assert (100.0 - p) * 1.25 <= (100.0 - pct) * 1.25 - 1.0;
    }
  }

  /** The ticks from pct until the progress reaches 100. */
  function TicksToFull(pct: real): nat
    decreases Remaining(pct)
  {
    if pct >= 100.0 then 0
    else
      RemainingFalls(pct);
      1 + TicksToFull(Next(pct))
  }

  /** Tick k + 1 is one tick after tick k. */
  lemma {:induction false} IterateStep(pct: real, k: nat)
    ensures Iterate(pct, k + 1) == Next(Iterate(pct, k))
    decreases k
  {
    if k > 0 {
      IterateStep(Next(pct), k - 1);
    }
  }

  /**
   * From any starting point at most 100 the progress is below 100 for
   * TicksToFull ticks, so each of them raises it (Next), and exactly 100 after.
   */
  lemma {:induction false} ReachesFull(pct: real)
    requires pct <= 100.0
    ensures Iterate(pct, TicksToFull(pct)) == 100.0
    ensures forall k :: 0 <= k < TicksToFull(pct) ==> Iterate(pct, k) < 100.0
    decreases Remaining(pct)
  {
    if pct < 100.0 {
      RemainingFalls(pct);
      var p := Next(pct);
      ReachesFull(p);
      forall k | 0 <= k < TicksToFull(pct)
        ensures Iterate(pct, k) < 100.0
      {
        if k > 0 {
          assert Iterate(pct, k) == Iterate(p, k - 1);
        }
      }
    }
  }

  /** Before the progress is full every tick raises it, and no tick takes it past 100. */
  lemma RisesUntilFull(pct: real, k: nat)
    requires pct <= 100.0 && k < TicksToFull(pct)
    ensures Iterate(pct, k) < Iterate(pct, k + 1) <= 100.0
  {
    ReachesFull(pct);
    IterateStep(pct, k);
  }

  // ---------------------------------------------------------------------
  // The stage label

  /** The label of the last stage whose threshold the progress has reached. */
  function LastStage(stages: seq<Stage>, pct: real): Option<string> {
    if stages == [] then None
    else
      var n := |stages| - 1;
      if stages[n].at <= pct then Some(stages[n].title) else LastStage(stages[..n], pct)
  }

  /**
   * No label when no stage is reached; otherwise the label is that of a
   * reached stage after which no stage is reached.
   */
  lemma {:induction false} LastStageMeaning(stages: seq<Stage>, pct: real)
    ensures LastStage(stages, pct).None? <==> forall j :: 0 <= j < |stages| ==> pct < stages[j].at
    ensures LastStage(stages, pct).Some? ==>
              exists i :: 0 <= i < |stages| && stages[i].at <= pct && stages[i].title == LastStage(stages, pct).value
                          && forall j :: i < j < |stages| ==> pct < stages[j].at
  {
    if stages != [] {
      var n := |stages| - 1;
      if pct < stages[n].at {
        LastStageMeaning(stages[..n], pct);
        LastStageBefore(stages, pct, LastStage(stages[..n], pct));
      }
    }
  }

  /** A label for the stages before the last holds for all of them when the last is not reached. */
  lemma LastStageBefore(stages: seq<Stage>, pct: real, l: Option<string>)
    requires stages != [] && pct < stages[|stages| - 1].at
    requires var init := stages[..|stages| - 1];
             && (l.None? <==> forall j :: 0 <= j < |init| ==> pct < init[j].at)
             && (l.Some? ==> exists i :: 0 <= i < |init| && init[i].at <= pct && init[i].title == l.value
                                         && forall j :: i < j < |init| ==> pct < init[j].at)
    ensures l.None? <==> forall j :: 0 <= j < |stages| ==> pct < stages[j].at
    ensures l.Some? ==> exists i :: 0 <= i < |stages| && stages[i].at <= pct && stages[i].title == l.value
                                    && forall j :: i < j < |stages| ==> pct < stages[j].at
  {
    var n := |stages| - 1;
    var init := stages[..n];
    NoneReachedBefore(stages, init, pct);
    if l.Some? {
      var i :| 0 <= i < n && init[i].at <= pct && init[i].title == l.value
               && forall j :: i < j < n ==> pct < init[j].at;
      LaterNotReached(stages, init, pct, i);
    }
  }

  /** With the last stage not reached, no stage is reached exactly when none before it is. */
  lemma NoneReachedBefore(stages: seq<Stage>, init: seq<Stage>, pct: real)
    requires stages != [] && pct < stages[|stages| - 1].at && init == stages[..|stages| - 1]
    ensures (forall j :: 0 <= j < |init| ==> pct < init[j].at) <==>
            (forall j :: 0 <= j < |stages| ==> pct < stages[j].at)
  {
    assert forall j :: 0 <= j < |init| ==> init[j] == stages[j];
  }

  /** With the last stage not reached, a stage after which none before the last is reached has none reached after it. */
  lemma LaterNotReached(stages: seq<Stage>, init: seq<Stage>, pct: real, i: nat)
    requires stages != [] && pct < stages[|stages| - 1].at && init == stages[..|stages| - 1] && i < |init|
    requires forall j :: i < j < |init| ==> pct < init[j].at
    ensures init[i] == stages[i]
    ensures forall j :: i < j < |stages| ==> pct < stages[j].at
  {
    assert forall j :: 0 <= j < |init| ==> init[j] == stages[j];
  }

  /** The first stage starts at 0, so every progress of at least 0 has a label. */
  lemma SomeStageMatches(pct: real)
    requires 0.0 <= pct
    ensures LastStage(STAGES, pct).Some?
  {
    assert STAGES[0].at == 0.0;
    LastStageMeaning(STAGES, pct);
  }

  /** The backward scan over the stages, stopping at the first one reached. */
  method FindStage(stages: seq<Stage>, pct: real) returns (found: Option<string>)
    ensures found == LastStage(stages, pct)
  {
    var i := |stages|;
    found := None;
    assert stages[..i] == stages;
    while i > 0
      invariant 0 <= i <= |stages|
      invariant LastStage(stages, pct) == LastStage(stages[..i], pct)
      decreases i
    {
      LastStageStep(stages, pct, i);
      if stages[i - 1].at <= pct {
        found := Some(stages[i - 1].title);
        return;
      }
      i := i - 1;
    }
    assert stages[..0] == [];
  }

  /** The label of the first i stages: the i-th stage's if reached, else that of the ones before it. */
  lemma LastStageStep(stages: seq<Stage>, pct: real, i: nat)
    requires 0 < i <= |stages|
    ensures LastStage(stages[..i], pct) ==
            if stages[i - 1].at <= pct then Some(stages[i - 1].title) else LastStage(stages[..i - 1], pct)
  {
    assert stages[..i][..i - 1] == stages[..i - 1];
  }

  // ---------------------------------------------------------------------
  // The page

  /** The user record the page stores. */
  datatype StoredUser = StoredUser(email: string, password: string, name: string)

  class SignupView {
    var error: string
    var loading: bool
    var progress: real
    var statusLabel: string
    /** The interval's counter, shared by its ticks. */
    var pct: real
    /** Whether the interval is still set. */
    var ticking: bool
    /** The `meridian_user` entry of local storage. */
    var storedUser: Option<StoredUser>

    /** The counter never passes 100, and the interval runs exactly while it is below 100. */
    predicate Valid()
      reads this
    {
      0.0 <= pct <= 100.0 && (ticking ==> pct < 100.0)
    }

    constructor ()
      ensures Valid()
      ensures error == "" && !loading && progress == 0.0 && statusLabel == FIRST_LABEL
      ensures pct == 0.0 && !ticking && storedUser.None?
    {
      error := "";
      loading := false;
      progress := 0.0;
      statusLabel := FIRST_LABEL;
      pct := 0.0;
      ticking := false;
      storedUser := None;
    }

    /**
     * `handleSignup`: an invalid form shows its error and changes nothing else;
     * a valid one clears the error, stores the user and starts the interval
     * from 0.
     */
    method HandleSignup(name: string, email: string, password: string)
      requires Valid()
      modifies this
      ensures Valid()
      ensures Validate(name, email, password).Some? ==>
                error == Validate(name, email, password).value
                && loading == old(loading) && progress == old(progress) && statusLabel == old(statusLabel)
                && pct == old(pct) && ticking == old(ticking) && storedUser == old(storedUser)
      ensures Validate(name, email, password).None? ==>
                error == "" && loading && pct == 0.0 && ticking
                && storedUser == Some(StoredUser(email, password, name))
                && progress == old(progress) && statusLabel == old(statusLabel)
    {
      error := "";
      if name == "" || email == "" || password == "" {
        error := REQUIRED_ERROR;
        return;
      }
      if |password| < 6 {
        error := LENGTH_ERROR;
        return;
      }
      storedUser := Some(StoredUser(email, password, name));
      loading := true;
      pct := 0.0;
      ticking := true;
    }

    /**
     * One call of the interval: the counter moves on one tick and is shown,
     * the label is that of the last stage reached, and at 100 the interval
     * stops and the label reads ready.
     */
    method Tick()
      requires Valid() && ticking
      modifies this
      ensures Valid()
      ensures pct == Next(old(pct)) && old(pct) < pct && progress == pct
      ensures ticking <==> pct < 100.0
      ensures pct < 100.0 ==> LastStage(STAGES, pct) == Some(statusLabel)
      ensures pct >= 100.0 ==> statusLabel == READY_LABEL
      ensures error == old(error) && loading == old(loading) && storedUser == old(storedUser)
    {
      var step := if pct < 30.0 then 2.0 else if pct < 75.0 then 1.0 else if pct < 95.0 then 1.5 else 0.8;
      pct := if 100.0 < pct + step then 100.0 else pct + step;
      progress := pct;
      SomeStageMatches(pct);
      var found := FindStage(STAGES, pct);
      if found.Some? {
        statusLabel := found.value;
      }
      if pct >= 100.0 {
        ticking := false;
        statusLabel := READY_LABEL;
      }
    }
  }
}
