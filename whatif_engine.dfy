/**
 * core/whatif_engine.py: `run_simulation`. One mutation (add developers,
 * extend deadlines, remove scope, close pull requests) is applied to a copy
 * of the project state; both states are then scored and the deltas reported.
 * Project states are values, so the caller's data can never be changed: the
 * copy the source makes with `copy.deepcopy` is the value itself.
 */
module WhatIfEngine {
  import opened Wrappers
  import opened Text
  import opened Records
  import opened Tally
  import opened SignalExtractor
  import opened RiskFormula

  /** A mutation request: `type` (possibly absent) and its integer parameters. */
  datatype Mutation = Mutation(kind: Option<string>, params: map<string, int>)

  /** `mutation.get(key, 0)`. */
  function Param(m: Mutation, key: string): int {
    if key in m.params then m.params[key] else 0
  }

  // ---------------------------------------------------------------------
  // Python slices with integer (possibly negative) bounds

  function Clip(i: int, n: nat): (r: nat)
    ensures r <= n
  {
    if i < 0 then 0 else if i > n then n else i
  }

  /** Python's `s[start:]`: a negative start counts from the end. */
  function PyDrop<T>(s: seq<T>, start: int): seq<T> {
    s[Clip(if start < 0 then start + |s| else start, |s|)..]
  }

  /** Python's `s[:end]`: a negative end counts from the end. */
  function PyTake<T>(s: seq<T>, end: int): seq<T> {
    s[..Clip(if end < 0 then end + |s| else end, |s|)]
  }

  // ---------------------------------------------------------------------
  // add_developers

  /** The number of iterations of `range(count)`. */
  function RangeLength(count: int): nat {
    if count < 0 then 0 else count
  }

  /** `f"dev_{n + i + 1}_sim"` for the i-th new developer after n existing ones. */
  function NewDevId(n: nat, i: nat): string {
    "dev_" + NatToString(n + i + 1) + "_sim"
  }

  function NewDeveloper(n: nat, i: nat): Developer {
    Developer(NewDevId(n, i), Some("Simulated Dev " + NatToString(i + 1)), "developer")
  }

  function NewDevIds(n: nat, count: int): (ids: seq<string>)
    ensures |ids| == RangeLength(count)
  {
    seq(RangeLength(count), i requires 0 <= i < RangeLength(count) => NewDevId(n, i))
  }

  function NewDevelopers(n: nat, count: int): (devs: seq<Developer>)
    ensures |devs| == RangeLength(count)
    ensures forall i :: 0 <= i < |devs| ==> devs[i].devId == NewDevIds(n, count)[i]
  {
    seq(RangeLength(count), i requires 0 <= i < RangeLength(count) => NewDeveloper(n, i))
  }

  /** The open task is assigned to `dev`. */
  predicate Holds(t: Task, dev: string) {
    IsOpen(t) && t.assignedTo == Some(dev)
  }

  /** How many of the first `i` tasks are open tasks of `dev`. */
  function HeldBefore(tasks: seq<Task>, dev: string, i: nat): (n: nat)
    requires i <= |tasks|
    ensures n <= i
  {
    if i == 0 then 0 else HeldBefore(tasks, dev, i - 1) + (if Holds(tasks[i - 1], dev) then 1 else 0)
  }

  lemma {:induction false} HeldBeforeMonotone(tasks: seq<Task>, dev: string, i: nat, j: nat)
    requires i <= j <= |tasks|
    ensures HeldBefore(tasks, dev, i) <= HeldBefore(tasks, dev, j)
    decreases j - i
  {
    if i < j {
      HeldBeforeMonotone(tasks, dev, i, j - 1);
    }
  }

  /**
   * The reassignment loop, stated position by position: the k-th open task of
   * `dev` (counting from 0) goes to the new id `ids[k % |ids|]` while k is
   * below `limit`; every other task is unchanged.
   */
  function Reassigned(tasks: seq<Task>, dev: string, ids: seq<string>, limit: int): (r: seq<Task>)
    requires ids != []
    ensures |r| == |tasks|
  {
    seq(|tasks|, i requires 0 <= i < |tasks| =>
      if Holds(tasks[i], dev) && HeldBefore(tasks, dev, i) < limit
      then tasks[i].(assignedTo := Some(ids[HeldBefore(tasks, dev, i) % |ids|]))
      else tasks[i])
  }

  /** How many of the first `n` tasks the reassignment picks. */
  function Picked(tasks: seq<Task>, dev: string, limit: int, n: nat): nat
    requires n <= |tasks|
  {
    if n == 0 then 0
    else Picked(tasks, dev, limit, n - 1) +
         (if Holds(tasks[n - 1], dev) && HeldBefore(tasks, dev, n - 1) < limit then 1 else 0)
  }

  /** The reassignment moves min(limit, open tasks of `dev`) tasks. */
  lemma {:induction false} PickedIsMin(tasks: seq<Task>, dev: string, limit: nat, n: nat)
    requires n <= |tasks|
    ensures Picked(tasks, dev, limit, n) ==
            if HeldBefore(tasks, dev, n) < limit then HeldBefore(tasks, dev, n) else limit
  {
    if n > 0 {
      PickedIsMin(tasks, dev, limit, n - 1);
    }
  }

  /** `max(open_assigned, key=open_assigned.get)`: the first assignee, in order of first appearance, with the most open tasks. */
  function MostOverloaded(tasks: seq<Task>): (r: Option<string>)
    ensures r.Some? <==> OpenAssignees(tasks) != []
    ensures r.Some? ==> r.value in OpenAssignees(tasks) &&
                        forall k :: Occ(OpenAssignees(tasks), k) <= Occ(OpenAssignees(tasks), r.value)
    ensures r.Some? ==> exists i :: 0 <= i < |Distinct(OpenAssignees(tasks))| && Distinct(OpenAssignees(tasks))[i] == r.value &&
                          forall j :: 0 <= j < i ==>
                            Occ(OpenAssignees(tasks), Distinct(OpenAssignees(tasks))[j]) < Occ(OpenAssignees(tasks), r.value)
  {
    var a := OpenAssignees(tasks);
    if a != [] then assert a[0] in Distinct(a); ArgMaxBy(Distinct(a), k => Occ(a, k))
    else ArgMaxBy(Distinct(a), k => Occ(a, k))
  }

  /** The `add_developers` branch. */
  function AddDevelopersSpec(data: ProjectData, count: int): (sim: ProjectData)
    ensures sim.developers == data.developers + NewDevelopers(|data.developers|, count)
    ensures |sim.tasks| == |data.tasks|
    ensures sim == data.(developers := sim.developers, tasks := sim.tasks)
    ensures MostOverloaded(data.tasks).Some? && count >= 1 ==>
              sim.tasks == Reassigned(data.tasks, MostOverloaded(data.tasks).value, NewDevIds(|data.developers|, count), count * 3)
    ensures MostOverloaded(data.tasks).None? || count < 1 ==> sim.tasks == data.tasks
  {
    var ids := NewDevIds(|data.developers|, count);
    var tasks := match MostOverloaded(data.tasks)
      case None => data.tasks
      case Some(most) => if ids == [] then data.tasks else Reassigned(data.tasks, most, ids, count * 3);
    data.(developers := data.developers + NewDevelopers(|data.developers|, count), tasks := tasks)
  }

  /** The reassignment touches only open tasks of the most loaded developer, and only their assignee. */
  lemma ReassignedOnlyMovesHeldTasks(tasks: seq<Task>, dev: string, ids: seq<string>, limit: int, i: nat)
    requires ids != [] && i < |tasks|
    ensures Reassigned(tasks, dev, ids, limit)[i] != tasks[i] ==>
              Holds(tasks[i], dev) && Reassigned(tasks, dev, ids, limit)[i] == tasks[i].(assignedTo := Reassigned(tasks, dev, ids, limit)[i].assignedTo)
    ensures Reassigned(tasks, dev, ids, limit)[i].assignedTo != tasks[i].assignedTo ==>
              Reassigned(tasks, dev, ids, limit)[i].assignedTo.value in ids
  {
  }

  /** The loop appending the new developers and collecting their ids. */
  method AppendDevelopers(data: ProjectData, count: int) returns (sim: ProjectData, newDevIds: seq<string>)
    ensures sim == data.(developers := data.developers + NewDevelopers(|data.developers|, count))
    ensures newDevIds == NewDevIds(|data.developers|, count)
  {
    sim := data;
    newDevIds := [];
    var existing := |sim.developers|;
    for i := 0 to RangeLength(count)
      invariant newDevIds == NewDevIds(existing, count)[..i]
      invariant sim == data.(developers := data.developers + NewDevelopers(existing, count)[..i])
    {
      var id := NewDevId(existing, i);
      sim := sim.(developers := sim.developers + [Developer(id, Some("Simulated Dev " + NatToString(i + 1)), "developer")]);
      newDevIds := newDevIds + [id];
      assert NewDevelopers(existing, count)[..i + 1] == NewDevelopers(existing, count)[..i] + [NewDeveloper(existing, i)];
    }
    assert NewDevIds(existing, count)[..RangeLength(count)] == NewDevIds(existing, count);
    assert NewDevelopers(existing, count)[..RangeLength(count)] == NewDevelopers(existing, count);
  }

  /** The loop handing the open tasks of `most` round-robin to the new ids, stopping after `limit`. */
  method ReassignTasks(tasks0: seq<Task>, most: string, newDevIds: seq<string>, tasksToReassign: int) returns (tasks: seq<Task>)
    requires newDevIds != [] && tasksToReassign >= 0
    ensures tasks == Reassigned(tasks0, most, newDevIds, tasksToReassign)
  {
    tasks := tasks0;
    var reassigned := 0;
    var devIdx := 0;
    var i := 0;
    ghost var spec := Reassigned(tasks0, most, newDevIds, tasksToReassign);
    while i < |tasks| && reassigned < tasksToReassign
      invariant i <= |tasks| == |tasks0|
      invariant forall j :: 0 <= j < i ==> tasks[j] == spec[j]
      invariant forall j :: i <= j < |tasks| ==> tasks[j] == tasks0[j]
      invariant devIdx == reassigned == HeldBefore(tasks0, most, i) <= tasksToReassign
    {
      if IsOpen(tasks[i]) && tasks[i].assignedTo == Some(most) {
        tasks := tasks[i := tasks[i].(assignedTo := Some(newDevIds[devIdx % |newDevIds|]))];
        devIdx := devIdx + 1;
        reassigned := reassigned + 1;
      }
      i := i + 1;
    }
    forall j | i <= j < |tasks| ensures tasks[j] == spec[j] {
      HeldBeforeMonotone(tasks0, most, i, j);
    }
  }

  method AddDevelopers(data: ProjectData, count: int) returns (sim: ProjectData)
    ensures sim == AddDevelopersSpec(data, count)
  {
    var newDevIds;
    sim, newDevIds := AppendDevelopers(data, count);
    ghost var spec := AddDevelopersSpec(data, count);
    var keys, counts := CountOpenAssigned(sim.tasks);
    assert keys == [] <==> MostOverloaded(data.tasks).None? by {
      if OpenAssignees(data.tasks) != [] { assert OpenAssignees(data.tasks)[0] in keys; }
    }
    if keys != [] && newDevIds != [] {
      var best := ArgMaxBy(keys, k => Get(counts, k));
      assert best == MostOverloaded(data.tasks) by {
        ArgMaxByAgree(keys, k => Get(counts, k), k => Occ(OpenAssignees(data.tasks), k));
      }
      var most := best.value;
      var tasks := ReassignTasks(sim.tasks, most, newDevIds, count * 3);
      assert tasks == spec.tasks;
      sim := sim.(tasks := tasks);
    } else {
      assert sim.tasks == spec.tasks;
    }
  }
  // ---------------------------------------------------------------------
  // extend_deadline

  /** Every open task's due date moves by `days`; done tasks keep theirs. */
  function Shifted(tasks: seq<Task>, days: int): (r: seq<Task>)
    ensures |r| == |tasks|
    ensures forall i :: 0 <= i < |tasks| && !IsOpen(tasks[i]) ==> r[i] == tasks[i]
    ensures forall i :: 0 <= i < |tasks| && IsOpen(tasks[i]) ==>
              r[i] == tasks[i].(dueDate := tasks[i].dueDate + days * DAY)
  {
    seq(|tasks|, i requires 0 <= i < |tasks| =>
      if IsOpen(tasks[i]) then tasks[i].(dueDate := tasks[i].dueDate + days * DAY) else tasks[i])
  }

  /** Extending by `days` and then by `-days` restores the tasks. */
  lemma ShiftedInverse(tasks: seq<Task>, days: int)
    ensures Shifted(Shifted(tasks, days), -days) == tasks
  {
    var r := Shifted(Shifted(tasks, days), -days);
    forall i | 0 <= i < |tasks| ensures r[i] == tasks[i] {
      assert IsOpen(Shifted(tasks, days)[i]) == IsOpen(tasks[i]);
    }
  }

  /** The `extend_deadline` loop over the copied tasks. */
  method ExtendDeadline(data: ProjectData, days: int) returns (sim: ProjectData)
    ensures sim == data.(tasks := Shifted(data.tasks, days))
  {
    var tasks := data.tasks;
    for i := 0 to |tasks|
      invariant |tasks| == |data.tasks|
      invariant forall j :: 0 <= j < i ==> tasks[j] == Shifted(data.tasks, days)[j]
      invariant forall j :: i <= j < |tasks| ==> tasks[j] == data.tasks[j]
    {
      if IsOpen(tasks[i]) {
        tasks := tasks[i := tasks[i].(dueDate := tasks[i].dueDate + days * DAY)];
      }
    }
    sim := data.(tasks := tasks);
  }

  // ---------------------------------------------------------------------
  // remove_scope

  predicate IsEligible(t: Task) {
    !t.isBaseline && IsOpen(t)
  }

  /** The non-baseline, non-done tasks, in order. */
  function Eligible(tasks: seq<Task>): (r: seq<Task>)
    ensures forall t :: t in r <==> t in tasks && IsEligible(t)
  {
    if tasks == [] then [] else (if IsEligible(tasks[0]) then [tasks[0]] else []) + Eligible(tasks[1..])
  }

  /** `eligible[-task_count:] if task_count < len(eligible) else eligible`. */
  function ToRemove(eligible: seq<Task>, taskCount: int): seq<Task> {
    if taskCount < |eligible| then PyDrop(eligible, -taskCount) else eligible
  }

  /** The last `task_count` of them; all of them for a large count, and also for 0 (the `[-0:]` slice). */
  lemma ToRemoveSelection(eligible: seq<Task>, taskCount: int)
    ensures 0 < taskCount < |eligible| ==> ToRemove(eligible, taskCount) == eligible[|eligible| - taskCount..]
    ensures taskCount >= |eligible| ==> ToRemove(eligible, taskCount) == eligible
    ensures taskCount == 0 ==> ToRemove(eligible, taskCount) == eligible
    ensures taskCount < 0 ==> ToRemove(eligible, taskCount) == eligible[Clip(-taskCount, |eligible|)..]
  {
  }

  function IdsOf(tasks: seq<Task>): set<string> {
    set t | t in tasks :: t.taskId
  }

  /** The tasks whose id is not in `removed`, in order. */
  function Survivors(tasks: seq<Task>, removed: set<string>): (r: seq<Task>)
    ensures forall t :: t in r <==> t in tasks && t.taskId !in removed
  {
    if tasks == [] then []
    else
      var init := tasks[..|tasks| - 1];
      var t := tasks[|tasks| - 1];
      assert tasks == init + [t];
      Survivors(init, removed) + (if t.taskId in removed then [] else [t])
  }

  /** `[dep for dep in deps if dep not in removed]`. */
  function Without(deps: seq<string>, removed: set<string>): (r: seq<string>)
    ensures forall d :: d in r <==> d in deps && d !in removed
  {
    if deps == [] then [] else (if deps[0] in removed then [] else [deps[0]]) + Without(deps[1..], removed)
  }

  function PruneDeps(tasks: seq<Task>, removed: set<string>): (r: seq<Task>)
    ensures |r| == |tasks|
    ensures forall i :: 0 <= i < |tasks| ==> r[i] == tasks[i].(dependsOn := Without(tasks[i].dependsOn, removed))
  {
    seq(|tasks|, i requires 0 <= i < |tasks| => tasks[i].(dependsOn := Without(tasks[i].dependsOn, removed)))
  }

  function RemoveScopeTasks(tasks: seq<Task>, taskCount: int): seq<Task> {
    var removed := IdsOf(ToRemove(Eligible(tasks), taskCount));
    PruneDeps(Survivors(tasks, removed), removed)
  }

  /** The loop rewriting `depends_on` of every surviving task. */
  method PruneDependencies(tasks0: seq<Task>, removed: set<string>) returns (tasks: seq<Task>)
    ensures tasks == PruneDeps(tasks0, removed)
  {
    tasks := tasks0;
    for i := 0 to |tasks|
      invariant |tasks| == |tasks0|
      invariant forall j :: 0 <= j < i ==> tasks[j] == PruneDeps(tasks0, removed)[j]
      invariant forall j :: i <= j < |tasks| ==> tasks[j] == tasks0[j]
    {
      tasks := tasks[i := tasks[i].(dependsOn := Without(tasks[i].dependsOn, removed))];
    }
  }

  method RemoveScope(data: ProjectData, taskCount: int) returns (sim: ProjectData)
    ensures sim == data.(tasks := RemoveScopeTasks(data.tasks, taskCount))
  {
    var eligible := Eligible(data.tasks);
    var toRemove := ToRemove(eligible, taskCount);
    var toRemoveIds := IdsOf(toRemove);
    var tasks := Survivors(data.tasks, toRemoveIds);
    tasks := PruneDependencies(tasks, toRemoveIds);
    sim := data.(tasks := tasks);
  }

  predicate UniqueIds(tasks: seq<Task>) {
    forall i, j :: 0 <= i < j < |tasks| ==> tasks[i].taskId != tasks[j].taskId
  }

  /** No surviving task is a removed one, and no surviving dependency names a removed id. */
  lemma RemoveScopeLeavesNoReference(tasks: seq<Task>, taskCount: int, t: Task)
    requires t in RemoveScopeTasks(tasks, taskCount)
    ensures var removed := IdsOf(ToRemove(Eligible(tasks), taskCount));
            t.taskId !in removed && forall d :: d in t.dependsOn ==> d !in removed
  {
    var removed := IdsOf(ToRemove(Eligible(tasks), taskCount));
    var s := Survivors(tasks, removed);
    var i :| 0 <= i < |s| && PruneDeps(s, removed)[i] == t;
    assert s[i] in s;
  }

  lemma ToRemoveSubset(eligible: seq<Task>, taskCount: int)
    ensures forall e :: e in ToRemove(eligible, taskCount) ==> e in eligible
  {
    var k := Clip(if -taskCount < 0 then -taskCount + |eligible| else -taskCount, |eligible|);
    if taskCount < |eligible| {
      assert ToRemove(eligible, taskCount) == eligible[k..];
      forall e | e in eligible[k..] ensures e in eligible {
        var j :| 0 <= j < |eligible[k..]| && eligible[k..][j] == e;
        assert eligible[k + j] == e;
      }
    }
  }

  /** With unique task ids, only non-baseline, non-done tasks are removed. */
  lemma RemoveScopeOnlyEligible(tasks: seq<Task>, taskCount: int, t: Task)
    requires UniqueIds(tasks)
    requires t in tasks && t.taskId in IdsOf(ToRemove(Eligible(tasks), taskCount))
    ensures IsEligible(t)
  {
    var e :| e in ToRemove(Eligible(tasks), taskCount) && e.taskId == t.taskId;
    ToRemoveSubset(Eligible(tasks), taskCount);
    var a :| 0 <= a < |tasks| && tasks[a] == e;
    var b :| 0 <= b < |tasks| && tasks[b] == t;
    assert a == b;
  }

  /** Every node of `sub` is a node of `adj` outside `removed`, with a subset of its dependencies. */
  predicate SubGraph(sub: map<string, seq<string>>, adj: map<string, seq<string>>, removed: set<string>) {
    forall n :: n in sub ==> n in adj && n !in removed && forall d :: d in sub[n] ==> d in adj[n]
  }

  /** A surviving task adds itself to both graphs, with fewer dependencies in the pruned one. */
  lemma SubGraphKept(sub: map<string, seq<string>>, adj: map<string, seq<string>>, removed: set<string>,
                     id: string, deps: seq<string>)
    requires SubGraph(sub, adj, removed) && id !in removed
    ensures SubGraph(sub[id := Without(deps, removed)], adj[id := deps], removed)
  {
  }

  /** A removed task adds itself to the original graph only. */
  lemma SubGraphDropped(sub: map<string, seq<string>>, adj: map<string, seq<string>>, removed: set<string>,
                        id: string, deps: seq<string>)
    requires SubGraph(sub, adj, removed) && id in removed
    ensures SubGraph(sub, adj[id := deps], removed)
  {
  }

  /** Pruning a surviving last task adds it to the graph with its pruned dependencies. */
  lemma PrunedSnoc(s: seq<Task>, t: Task, removed: set<string>)
    ensures Adjacency(PruneDeps(s + [t], removed)) == Adjacency(PruneDeps(s, removed))[t.taskId := Without(t.dependsOn, removed)]
  {
    var p := PruneDeps(s + [t], removed);
    assert p[..|p| - 1] == PruneDeps(s, removed);
    assert p[|p| - 1] == t.(dependsOn := Without(t.dependsOn, removed));
  }

  /** Surviving tasks keep their order and every field but `depends_on`, which only loses ids. */
  lemma {:induction false} RemoveScopeAdjacency(tasks: seq<Task>, removed: set<string>)
    ensures SubGraph(Adjacency(PruneDeps(Survivors(tasks, removed), removed)), Adjacency(tasks), removed)
  {
    if tasks != [] {
      var init := tasks[..|tasks| - 1];
      var t := tasks[|tasks| - 1];
      var q := PruneDeps(Survivors(init, removed), removed);
      RemoveScopeAdjacency(init, removed);
      assert Adjacency(tasks) == Adjacency(init)[t.taskId := t.dependsOn];
      if t.taskId !in removed {
        assert Adjacency(PruneDeps(Survivors(tasks, removed), removed)) == Adjacency(q)[t.taskId := Without(t.dependsOn, removed)] by {
          assert Survivors(tasks, removed) == Survivors(init, removed) + [t];
          PrunedSnoc(Survivors(init, removed), t, removed);
        }
        SubGraphKept(Adjacency(q), Adjacency(init), removed, t.taskId, t.dependsOn);
      } else {
        assert Survivors(tasks, removed) == Survivors(init, removed);
        SubGraphDropped(Adjacency(q), Adjacency(init), removed, t.taskId, t.dependsOn);
      }
    }
  }

  /** Removing scope keeps the dependency graph acyclic, with the same ranks. */
  lemma RemoveScopeRanked(tasks: seq<Task>, taskCount: int, rank: map<string, nat>)
    requires Ranked(Adjacency(tasks), rank)
    ensures Ranked(Adjacency(RemoveScopeTasks(tasks, taskCount)), rank)
  {
    RemoveScopeAdjacency(tasks, IdsOf(ToRemove(Eligible(tasks), taskCount)));
  }

  /** Tasks with the same ids and dependencies, position by position, have the same graph. */
  lemma {:induction false} AdjacencySameEdges(a: seq<Task>, b: seq<Task>)
    requires |a| == |b|
    requires forall i :: 0 <= i < |a| ==> a[i].taskId == b[i].taskId && a[i].dependsOn == b[i].dependsOn
    ensures Adjacency(a) == Adjacency(b)
  {
    if a != [] {
      AdjacencySameEdges(a[..|a| - 1], b[..|b| - 1]);
    }
  }

  // ---------------------------------------------------------------------
  // close_prs

  predicate SortedByCreation(s: seq<PullRequest>) {
    forall i, j :: 0 <= i < j < |s| ==> s[i].createdAt <= s[j].createdAt
  }

  /** Insert after every element created no later than `p`. */
  function Insert(p: PullRequest, s: seq<PullRequest>): (r: seq<PullRequest>)
    requires SortedByCreation(s)
    ensures SortedByCreation(r)
    ensures |r| == |s| + 1
    ensures forall x :: x in r <==> x == p || x in s
  {
    if s == [] then [p]
    else if p.createdAt < s[0].createdAt then [p] + s
    else
      SortedTail(s);
      var rest := Insert(p, s[1..]);
      ConsSorted(s, p, rest);
      [s[0]] + rest
  }

  lemma {:induction false} InsertPermutes(p: PullRequest, s: seq<PullRequest>)
    requires SortedByCreation(s)
    ensures multiset(Insert(p, s)) == multiset(s) + multiset{p}
  {
    if s != [] && p.createdAt >= s[0].createdAt {
      InsertPermutes(p, s[1..]);
      assert s == [s[0]] + s[1..];
    }
  }

  /** `list.sort(key=created_at)`: a stable sort, here by insertion in list order. */
  function SortByCreation(s: seq<PullRequest>): (r: seq<PullRequest>)
    ensures SortedByCreation(r)
    ensures |r| == |s|
    ensures forall x :: x in r <==> x in s
  {
    if s == [] then []
    else
      assert s == s[..|s| - 1] + [s[|s| - 1]];
      Insert(s[|s| - 1], SortByCreation(s[..|s| - 1]))
  }

  /** The sort is a permutation. */
  lemma {:induction false} SortPermutes(s: seq<PullRequest>)
    ensures multiset(SortByCreation(s)) == multiset(s)
  {
    if s != [] {
      var init := s[..|s| - 1];
      var x := s[|s| - 1];
      var sorted := SortByCreation(init);
      assert SortByCreation(s) == Insert(x, sorted);
      calc {
        multiset(SortByCreation(s));
        multiset(Insert(x, sorted));
        { InsertPermutes(x, sorted); }
        multiset(sorted) + multiset{x};
        { SortPermutes(init); }
        multiset(init) + multiset{x};
        { assert s == init + [x]; }
        multiset(s);
      }
    }
  }

  /** The elements of `s` created at time `c`, in order. */
  function CreatedAt(s: seq<PullRequest>, c: int): seq<PullRequest> {
    if s == [] then [] else (if s[0].createdAt == c then [s[0]] else []) + CreatedAt(s[1..], c)
  }

  lemma {:induction false} CreatedAtAppend(a: seq<PullRequest>, b: seq<PullRequest>, c: int)
    ensures CreatedAt(a + b, c) == CreatedAt(a, c) + CreatedAt(b, c)
  {
    if a != [] {
      assert (a + b)[1..] == a[1..] + b;
      CreatedAtAppend(a[1..], b, c);
    } else {
      assert a + b == b;
    }
  }

  /** The head of a sorted sequence goes before a sorted arrangement of `p` and the tail. */
  lemma ConsSorted(s: seq<PullRequest>, p: PullRequest, rest: seq<PullRequest>)
    requires SortedByCreation(s) && s != [] && s[0].createdAt <= p.createdAt
    requires SortedByCreation(rest) && forall x :: x in rest ==> x == p || x in s[1..]
    ensures SortedByCreation([s[0]] + rest)
  {
    assert forall x :: x in rest ==> s[0].createdAt <= x.createdAt by {
      forall x | x in rest ensures s[0].createdAt <= x.createdAt {
        if x != p {
          var k :| 0 <= k < |s[1..]| && s[1..][k] == x;
          assert s[k + 1] == x;
        }
      }
    }
    var r := [s[0]] + rest;
    forall i, j | 0 <= i < j < |r| ensures r[i].createdAt <= r[j].createdAt {
      assert r[j] == rest[j - 1] && rest[j - 1] in rest;
      if i > 0 { assert r[i] == rest[i - 1]; }
    }
  }

  lemma {:induction false} InsertStable(p: PullRequest, s: seq<PullRequest>, c: int)
    requires SortedByCreation(s)
    ensures CreatedAt(Insert(p, s), c) == CreatedAt(s, c) + (if p.createdAt == c then [p] else [])
  {
    var r := Insert(p, s);
    var tail := if p.createdAt == c then [p] else [];
    if s == [] {
      assert r == [p];
    } else if p.createdAt < s[0].createdAt {
      assert r == [p] + s;
      assert r[1..] == s;
      if p.createdAt == c {
        NoneCreatedAt(s, c);
      }
    } else {
      SortedTail(s);
      var rest := Insert(p, s[1..]);
      var head := if s[0].createdAt == c then [s[0]] else [];
      calc {
        CreatedAt(r, c);
        { assert r == [s[0]] + rest; assert r[0] == s[0] && r[1..] == rest; }
        head + CreatedAt(rest, c);
        { InsertStable(p, s[1..], c); }
        head + (CreatedAt(s[1..], c) + tail);
        (head + CreatedAt(s[1..], c)) + tail;
        CreatedAt(s, c) + tail;
      }
    }
  }

  lemma SortedTail(s: seq<PullRequest>)
    requires SortedByCreation(s) && s != []
    ensures SortedByCreation(s[1..])
  {
  }

  lemma {:induction false} NoneCreatedAt(s: seq<PullRequest>, c: int)
    requires SortedByCreation(s) && s != [] && c < s[0].createdAt
    ensures CreatedAt(s, c) == []
    decreases |s|
  {
    if |s| > 1 {
      NoneCreatedAt(s[1..], c);
    }
  }

  /** Stability: the pull requests created at the same time keep their relative order. */
  lemma {:induction false} SortStable(s: seq<PullRequest>, c: int)
    ensures CreatedAt(SortByCreation(s), c) == CreatedAt(s, c)
  {
    if s != [] {
      var init := s[..|s| - 1];
      var x := s[|s| - 1];
      SortStable(init, c);
      InsertStable(x, SortByCreation(init), c);
      assert SortByCreation(s) == Insert(x, SortByCreation(init));
      assert s == init + [x];
      CreatedAtAppend(init, [x], c);
      assert CreatedAt([x], c) == if x.createdAt == c then [x] else [];
    }
  }

  function PrIdsOf(prs: seq<PullRequest>): set<string> {
    set p | p in prs :: p.prId
  }

  /** The PRs to close: the first `pr_count` of the open ones, oldest first. */
  function ToClose(prs: seq<PullRequest>, prCount: int): seq<PullRequest> {
    PyTake(SortByCreation(OpenPrs(prs)), prCount)
  }

  /** The closed PRs are the oldest: none of the open PRs left open is older than one closed. */
  lemma ToCloseOldest(prs: seq<PullRequest>, prCount: int)
    ensures prCount >= 0 ==> |ToClose(prs, prCount)| == if prCount < |OpenPrs(prs)| then prCount else |OpenPrs(prs)|
    ensures forall p :: p in ToClose(prs, prCount) ==> p in prs && p.status == "open"
    ensures forall i, j :: 0 <= i < |ToClose(prs, prCount)| <= j < |OpenPrs(prs)| ==>
              ToClose(prs, prCount)[i].createdAt <= SortByCreation(OpenPrs(prs))[j].createdAt
  {
    var sorted := SortByCreation(OpenPrs(prs));
    forall p | p in ToClose(prs, prCount) ensures p in prs && p.status == "open" {
      assert p in sorted;
    }
  }

  /** Every PR whose id is chosen is closed now; every other PR is unchanged. */
  function Closed(prs: seq<PullRequest>, ids: set<string>, now: string): (r: seq<PullRequest>)
    ensures |r| == |prs|
    ensures forall i :: 0 <= i < |prs| && prs[i].prId !in ids ==> r[i] == prs[i]
    ensures forall i :: 0 <= i < |prs| && prs[i].prId in ids ==>
              r[i] == prs[i].(status := "closed", mergedAt := Some(now))
  {
    seq(|prs|, i requires 0 <= i < |prs| =>
      if prs[i].prId in ids then prs[i].(status := "closed", mergedAt := Some(now)) else prs[i])
  }

  function ClosePrsSpec(data: ProjectData, prCount: int): ProjectData {
    data.(pullRequests := Closed(data.pullRequests, PrIdsOf(ToClose(data.pullRequests, prCount)), data.simulatedNow))
  }

  method ClosePrs(data: ProjectData, prCount: int) returns (sim: ProjectData)
    ensures sim == ClosePrsSpec(data, prCount)
  {
    var simNow := data.simulatedNow;
    var openPrs := OpenPrs(data.pullRequests);
    openPrs := SortByCreation(openPrs);
    var toClose := PyTake(openPrs, prCount);
    var toCloseIds := PrIdsOf(toClose);
    var prs := data.pullRequests;
    for i := 0 to |prs|
      invariant |prs| == |data.pullRequests|
      invariant forall j :: 0 <= j < i ==> prs[j] == Closed(data.pullRequests, toCloseIds, simNow)[j]
      invariant forall j :: i <= j < |prs| ==> prs[j] == data.pullRequests[j]
    {
      if prs[i].prId in toCloseIds {
        prs := prs[i := prs[i].(status := "closed", mergedAt := Some(simNow))];
      }
    }
    sim := data.(pullRequests := prs);
  }
  // ---------------------------------------------------------------------
  // run_simulation

  /** The mutated copy: one branch per known `type`; any other type leaves the copy as it was. */
  function ApplyMutation(data: ProjectData, m: Mutation): ProjectData {
    if m.kind == Some("add_developers") then AddDevelopersSpec(data, Param(m, "count"))
    else if m.kind == Some("extend_deadline") then data.(tasks := Shifted(data.tasks, Param(m, "days")))
    else if m.kind == Some("remove_scope") then data.(tasks := RemoveScopeTasks(data.tasks, Param(m, "task_count")))
    else if m.kind == Some("close_prs") then ClosePrsSpec(data, Param(m, "pr_count"))
    else data
  }

  /** Same length, and the same id and dependencies at every position. */
  predicate SameEdges(a: seq<Task>, b: seq<Task>) {
    |a| == |b| && forall i :: 0 <= i < |a| ==> a[i].taskId == b[i].taskId && a[i].dependsOn == b[i].dependsOn
  }

  /** Reassigning tasks changes assignees only. */
  lemma AddDevelopersSameEdges(data: ProjectData, count: int)
    ensures SameEdges(data.tasks, AddDevelopersSpec(data, count).tasks)
  {
    var ids := NewDevIds(|data.developers|, count);
    match MostOverloaded(data.tasks)
    case None =>
    case Some(most) =>
      if ids != [] {
        ReassignedSameEdges(data.tasks, most, ids, count * 3);
      }
  }

  lemma ReassignedSameEdges(tasks: seq<Task>, dev: string, ids: seq<string>, limit: int)
    requires ids != []
    ensures SameEdges(tasks, Reassigned(tasks, dev, ids, limit))
  {
  }

  /** Moving due dates changes due dates only. */
  lemma ShiftedSameEdges(tasks: seq<Task>, days: int)
    ensures SameEdges(tasks, Shifted(tasks, days))
  {
  }

  /** Graphs of tasks with the same edges keep the same ranks. */
  lemma SameEdgesRanked(a: seq<Task>, b: seq<Task>, rank: map<string, nat>)
    requires SameEdges(a, b) && Ranked(Adjacency(a), rank)
    ensures Ranked(Adjacency(b), rank)
  {
    AdjacencySameEdges(a, b);
  }

  /** No mutation creates a dependency cycle: the ranks of the original graph still work. */
  lemma MutationKeepsRanked(data: ProjectData, m: Mutation, rank: map<string, nat>)
    requires Ranked(Adjacency(data.tasks), rank)
    ensures Ranked(Adjacency(ApplyMutation(data, m).tasks), rank)
  {
    if m.kind == Some("add_developers") {
      AddDevelopersSameEdges(data, Param(m, "count"));
      SameEdgesRanked(data.tasks, AddDevelopersSpec(data, Param(m, "count")).tasks, rank);
    } else if m.kind == Some("extend_deadline") {
      ShiftedSameEdges(data.tasks, Param(m, "days"));
      SameEdgesRanked(data.tasks, Shifted(data.tasks, Param(m, "days")), rank);
    } else if m.kind == Some("remove_scope") {
      RemoveScopeRanked(data.tasks, Param(m, "task_count"), rank);
    } else if m.kind == Some("close_prs") {
      assert ClosePrsSpec(data, Param(m, "pr_count")).tasks == data.tasks;
    }
  }

  datatype Summary = Summary(totalScore: real, riskLevel: string, agentScores: map<string, real>)

  datatype Delta = Delta(totalScore: real, riskLevelChanged: bool, agentDeltas: map<string, real>)

  datatype SimulationResult = SimulationResult(
    baseline: Summary,
    simulated: Summary,
    delta: Delta,
    mutationApplied: Mutation,
    simulationVersion: string)

  /** One delta per baseline agent: `sim.get(agent, 0.0) - base[agent]`. */
  function AgentDeltas(base: map<string, real>, sim: map<string, real>): (d: map<string, real>)
    ensures d.Keys == base.Keys
  {
    map k | k in base :: (if k in sim then sim[k] else 0.0) - base[k]
  }

  /** The loop over the baseline agent scores filling `agent_deltas`. */
  method ComputeAgentDeltas(keys: seq<string>, base: map<string, real>, sim: map<string, real>) returns (d: map<string, real>)
    requires forall k :: k in base <==> k in keys
    ensures d == AgentDeltas(base, sim)
  {
    d := map[];
    for i := 0 to |keys|
      invariant forall k :: k in d <==> k in keys[..i]
      invariant forall k :: k in d ==> d[k] == AgentDeltas(base, sim)[k]
    {
      assert keys[..i + 1] == keys[..i] + [keys[i]];
      var simVal := if keys[i] in sim then sim[keys[i]] else 0.0;
      d := d[keys[i] := simVal - base[keys[i]]];
    }
    assert keys[..|keys|] == keys;
  }

  function SummaryOf(r: RiskScore): Summary {
    Summary(r.totalScore, r.riskLevel, r.agentScores)
  }

  /** `compute_risk_score(extract_signals(data))`. */
  function Score(data: ProjectData, ghost rank: map<string, nat>): (r: RiskScore)
    requires Ranked(Adjacency(data.tasks), rank)
    ensures r.agentScores.Keys == set k | k in AGENT_KEYS
    ensures 0.0 <= r.totalScore <= 100.0
  {
    ComputeRiskScore(ExtractSignals(data, rank).signals)
  }

  /** The result dictionary, from the baseline and the simulated scores. */
  function Outcome(base: RiskScore, after: RiskScore, m: Mutation): (r: SimulationResult)
    requires base.agentScores.Keys == after.agentScores.Keys
    requires 0.0 <= base.totalScore <= 100.0 && 0.0 <= after.totalScore <= 100.0
    ensures r.baseline == SummaryOf(base) && r.simulated == SummaryOf(after)
    ensures r.delta.totalScore == after.totalScore - base.totalScore
    ensures -100.0 <= r.delta.totalScore <= 100.0
    ensures r.delta.riskLevelChanged <==> base.riskLevel != after.riskLevel
    ensures r.delta.agentDeltas.Keys == base.agentScores.Keys
    ensures forall k :: k in r.delta.agentDeltas ==>
              after.agentScores[k] == base.agentScores[k] + r.delta.agentDeltas[k]
    ensures r.mutationApplied == m && r.simulationVersion == "1.0"
  {
    SimulationResult(
      SummaryOf(base), SummaryOf(after),
      Delta(after.totalScore - base.totalScore, base.riskLevel != after.riskLevel,
            AgentDeltas(base.agentScores, after.agentScores)),
      m, "1.0")
  }

  /** `run_simulation(data, mutation)`. */
  function Simulate(data: ProjectData, m: Mutation, ghost rank: map<string, nat>): (r: SimulationResult)
    requires Ranked(Adjacency(data.tasks), rank)
    ensures Ranked(Adjacency(ApplyMutation(data, m).tasks), rank)
    ensures r == Outcome(Score(data, rank), Score(ApplyMutation(data, m), rank), m)
  {
    MutationKeepsRanked(data, m, rank);
    Outcome(Score(data, rank), Score(ApplyMutation(data, m), rank), m)
  }

  /** An unknown mutation type changes nothing, so every delta is 0. */
  lemma UnknownMutationNoDelta(data: ProjectData, m: Mutation, rank: map<string, nat>)
    requires Ranked(Adjacency(data.tasks), rank)
    requires m.kind !in {Some("add_developers"), Some("extend_deadline"), Some("remove_scope"), Some("close_prs")}
    ensures Simulate(data, m, rank).delta.totalScore == 0.0
    ensures !Simulate(data, m, rank).delta.riskLevelChanged
    ensures forall k :: k in Simulate(data, m, rank).delta.agentDeltas ==> Simulate(data, m, rank).delta.agentDeltas[k] == 0.0
  {
    assert ApplyMutation(data, m) == data;
  }

  /** The mutation dispatch, applied to the copy. */
  method Mutate(data: ProjectData, m: Mutation, ghost rank: map<string, nat>) returns (sim: ProjectData)
    requires Ranked(Adjacency(data.tasks), rank)
    ensures sim == ApplyMutation(data, m)
    ensures Ranked(Adjacency(sim.tasks), rank)
  {
    MutationKeepsRanked(data, m, rank);
    sim := data;
    var mutType := m.kind;
    if mutType == Some("add_developers") {
      sim := AddDevelopers(sim, Param(m, "count"));
    } else if mutType == Some("extend_deadline") {
      sim := ExtendDeadline(sim, Param(m, "days"));
    } else if mutType == Some("remove_scope") {
      sim := RemoveScope(sim, Param(m, "task_count"));
    } else if mutType == Some("close_prs") {
      sim := ClosePrs(sim, Param(m, "pr_count"));
    }
  }

  /** Extraction and scoring of one project state. */
  method ScoreState(data: ProjectData, ghost rank: map<string, nat>) returns (risk: RiskScore)
    requires Ranked(Adjacency(data.tasks), rank)
    ensures risk == Score(data, rank)
  {
    var signals := Extract(data, rank);
    risk := ComputeRiskScore(signals.signals);
  }

  /** The delta computation and the result dictionary. */
  method Compare(baseRisk: RiskScore, simRisk: RiskScore, m: Mutation) returns (r: SimulationResult)
    requires baseRisk.agentScores.Keys == simRisk.agentScores.Keys == set k | k in AGENT_KEYS
    requires 0.0 <= baseRisk.totalScore <= 100.0 && 0.0 <= simRisk.totalScore <= 100.0
    ensures r == Outcome(baseRisk, simRisk, m)
  {
    var agentDeltas := ComputeAgentDeltas(AGENT_KEYS, baseRisk.agentScores, simRisk.agentScores);
    var deltaTotalScore := simRisk.totalScore - baseRisk.totalScore;
    var riskLevelChanged := baseRisk.riskLevel != simRisk.riskLevel;
    r := SimulationResult(
      SummaryOf(baseRisk), SummaryOf(simRisk),
      Delta(deltaTotalScore, riskLevelChanged, agentDeltas),
      m, "1.0");
  }

  /** The simulation as the source runs it. */
  method RunSimulation(data: ProjectData, m: Mutation, ghost rank: map<string, nat>) returns (r: SimulationResult)
    requires Ranked(Adjacency(data.tasks), rank)
    ensures r == Simulate(data, m, rank)
  {
    var sim := Mutate(data, m, rank);
    var baseRisk := ScoreState(data, rank);
    var simRisk := ScoreState(sim, rank);
    r := Compare(baseRisk, simRisk, m);
  }
}
