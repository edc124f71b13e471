/**
 * core/signal_extractor.py: the fifteen normalised risk signals computed
 * from one project state. Ratios use a zero-safe division, every score is
 * clamped to [0, 1], and the dictionaries the source builds in loops
 * (the `dfs_depth` memo, `dep_counts`, `open_assigned`, the recent-sender set
 * and `thread_msg_counts`) are built by the methods below, each proved equal
 * to the specification function the signal formulas use.
 */
module SignalExtractor {
  import opened Wrappers
  import opened Records
  import opened Tally

  /** `_limit`: clamp to [0, 1]. */
  function Limit(v: real): (r: real)
    ensures 0.0 <= r <= 1.0
    ensures 0.0 <= v <= 1.0 ==> r == v
    ensures v < 0.0 ==> r == 0.0
    ensures v > 1.0 ==> r == 1.0
  {
    if v < 0.0 then 0.0 else if v > 1.0 then 1.0 else v
  }

  /** `_safe_div`: 0 for a zero denominator. */
  function SafeDiv(num: real, den: real): (r: real)
    ensures den == 0.0 ==> r == 0.0
    ensures den != 0.0 ==> r * den == num
    ensures 0.0 <= num <= den ==> 0.0 <= r <= 1.0
  {
    if den == 0.0 then 0.0 else num / den
  }

  /** A count divided by the size of the collection it was taken from. */
  function Ratio(count: nat, total: nat): (r: real)
    requires count <= total
    ensures 0.0 <= r <= 1.0
    ensures total == 0 ==> r == 0.0
  {
    SafeDiv(count as real, total as real)
  }

  // ---------------------------------------------------------------------
  // The dependency graph: adj = {t.task_id: t.depends_on for t in tasks}

  function TaskIds(tasks: seq<Task>): (ids: seq<string>)
    ensures |ids| == |tasks|
    ensures forall i :: 0 <= i < |tasks| ==> ids[i] == tasks[i].taskId
  {
    seq(|tasks|, i requires 0 <= i < |tasks| => tasks[i].taskId)
  }

  /** A later task with the same id overwrites the earlier entry. */
  function Adjacency(tasks: seq<Task>): (adj: map<string, seq<string>>)
    ensures forall n :: n in adj <==> n in TaskIds(tasks)
  {
    if tasks == [] then map[]
    else
      var init := tasks[..|tasks| - 1];
      assert TaskIds(tasks) == TaskIds(init) + [tasks[|tasks| - 1].taskId];
      Adjacency(init)[tasks[|tasks| - 1].taskId := tasks[|tasks| - 1].dependsOn]
  }

  /**
   * The graph has no cycle through known tasks: a rank that strictly
   * decreases along every edge between known tasks. `dfs_depth` has no cycle
   * check, so the source needs this of its input.
   */
  ghost predicate Ranked(adj: map<string, seq<string>>, rank: map<string, nat>) {
    && adj.Keys <= rank.Keys
    && forall n, d :: n in adj && d in adj[n] && d in adj ==> rank[d] < rank[n]
  }

  ghost function Height(adj: map<string, seq<string>>, rank: map<string, nat>, n: string): nat
    requires adj.Keys <= rank.Keys
  {
    if n in adj then rank[n] + 1 else 0
  }

  /** `dfs_depth`: 0 without dependencies (or for an unknown id), else 1 + the deepest dependency. */
  function Depth(adj: map<string, seq<string>>, ghost rank: map<string, nat>, n: string): nat
    requires Ranked(adj, rank)
    decreases Height(adj, rank, n), if n in adj then |adj[n]| + 1 else 0
  {
    if n !in adj || adj[n] == [] then 0 else 1 + DepthMax(adj, rank, n, adj[n])
  }

  /** The largest depth among `deps`, which are dependencies of `parent`; 0 for none. */
  function DepthMax(adj: map<string, seq<string>>, ghost rank: map<string, nat>, parent: string, deps: seq<string>): (m: nat)
    requires Ranked(adj, rank) && parent in adj
    requires forall d :: d in deps ==> d in adj[parent]
    decreases Height(adj, rank, parent), |deps|
  {
    if deps == [] then 0
    else
      var m := DepthMax(adj, rank, parent, deps[..|deps| - 1]);
      var x := Depth(adj, rank, deps[|deps| - 1]);
      if x > m then x else m
  }

  lemma {:induction false} DepthMaxBounds(adj: map<string, seq<string>>, rank: map<string, nat>, parent: string, deps: seq<string>, d: string)
    requires Ranked(adj, rank) && parent in adj
    requires forall e :: e in deps ==> e in adj[parent]
    requires d in deps
    ensures Depth(adj, rank, d) <= DepthMax(adj, rank, parent, deps)
    decreases |deps|
  {
    if d != deps[|deps| - 1] {
      assert deps == deps[..|deps| - 1] + [deps[|deps| - 1]];
      DepthMaxBounds(adj, rank, parent, deps[..|deps| - 1], d);
    }
  }

  /** A dependency chain: every element is a dependency of the one before it. */
  predicate IsChain(adj: map<string, seq<string>>, c: seq<string>) {
    forall i :: 0 <= i < |c| - 1 ==> c[i] in adj && c[i + 1] in adj[c[i]]
  }

  /** No chain starting at `n` has more edges than the depth of `n`. */
  lemma {:induction false} ChainWithinDepth(adj: map<string, seq<string>>, rank: map<string, nat>, c: seq<string>)
    requires Ranked(adj, rank)
    requires c != [] && IsChain(adj, c)
    ensures |c| - 1 <= Depth(adj, rank, c[0])
    decreases |c|
  {
    if |c| > 1 {
      assert IsChain(adj, c[1..]) by {
        forall i | 0 <= i < |c[1..]| - 1 ensures c[1..][i] in adj && c[1..][i + 1] in adj[c[1..][i]] {
          assert c[1..][i] == c[i + 1] && c[1..][i + 1] == c[i + 2];
        }
      }
      ChainWithinDepth(adj, rank, c[1..]);
      assert c[1] in adj[c[0]];
      DepthMaxBounds(adj, rank, c[0], adj[c[0]], c[1]);
    }
  }

  ghost predicate MemoSound(adj: map<string, seq<string>>, rank: map<string, nat>, memo: map<string, nat>)
    requires Ranked(adj, rank)
  {
    forall k :: k in memo ==> memo[k] == Depth(adj, rank, k)
  }

  /** `dfs_depth(node, memo)`: the depth of `node`, filling the memo on the way. */
  method DfsDepth(adj: map<string, seq<string>>, ghost rank: map<string, nat>, node: string, memo: map<string, nat>)
    returns (d: nat, memo': map<string, nat>)
    requires Ranked(adj, rank) && MemoSound(adj, rank, memo)
    ensures d == Depth(adj, rank, node)
    ensures MemoSound(adj, rank, memo') && memo.Keys <= memo'.Keys && node in memo'
    decreases Height(adj, rank, node)
  {
    if node in memo {
      return memo[node], memo;
    }
    var deps := if node in adj then adj[node] else [];
    if deps == [] {
      return 0, memo[node := 0];
    }
    var maxD := 0;
    memo' := memo;
    for i := 0 to |deps|
      invariant maxD == DepthMax(adj, rank, node, deps[..i])
      invariant MemoSound(adj, rank, memo') && memo.Keys <= memo'.Keys
    {
      assert deps[..i + 1][..i] == deps[..i];
      var x;
      x, memo' := DfsDepth(adj, rank, deps[i], memo');
      maxD := if x > maxD then x else maxD;
    }
    assert deps[..|deps|] == deps;
    d := 1 + maxD;
    memo' := memo'[node := d];
  }

  /** critical_path_depth: the greatest depth over all task ids, 0 without tasks. */
  function CriticalPath(tasks: seq<Task>, ghost rank: map<string, nat>): (v: nat)
    requires Ranked(Adjacency(tasks), rank)
    ensures forall t :: t in tasks ==> Depth(Adjacency(tasks), rank, t.taskId) <= v
    ensures tasks == [] ==> v == 0
    ensures tasks != [] ==> exists t :: t in tasks && Depth(Adjacency(tasks), rank, t.taskId) == v
  {
    var adj := Adjacency(tasks);
    var keys := Distinct(TaskIds(tasks));
    assert forall t :: t in tasks ==> t.taskId in keys by {
      forall t | t in tasks ensures t.taskId in keys {
        var i :| 0 <= i < |tasks| && tasks[i] == t;
        assert TaskIds(tasks)[i] == t.taskId;
      }
    }
    var f := k => Depth(adj, rank, k);
    var v := MaxBy(keys, f);
    if tasks != [] then
      assert tasks[0].taskId in keys;
      SomeTaskAttains(tasks, f, v);
      v
    else v
  }

  /** A value some listed id attains is attained by a task with that id. */
  lemma SomeTaskAttains(tasks: seq<Task>, f: string -> nat, v: nat)
    requires exists k :: k in Distinct(TaskIds(tasks)) && f(k) == v
    ensures exists t :: t in tasks && f(t.taskId) == v
  {
    var k :| k in Distinct(TaskIds(tasks)) && f(k) == v;
    var i :| 0 <= i < |tasks| && TaskIds(tasks)[i] == k;
    assert tasks[i] in tasks && tasks[i].taskId == k;
  }

  /** The loop `for t_id in adj.keys(): dfs_depth(t_id, depths)` and the maximum over the memo. */
  method ComputeCriticalPath(tasks: seq<Task>, ghost rank: map<string, nat>) returns (v: nat)
    requires Ranked(Adjacency(tasks), rank)
    ensures v == CriticalPath(tasks, rank)
  {
    var adj := Adjacency(tasks);
    var keys := Distinct(TaskIds(tasks));
    var depths: map<string, nat> := map[];
    for i := 0 to |keys|
      invariant MemoSound(adj, rank, depths)
      invariant forall j :: 0 <= j < i ==> keys[j] in depths
    {
      ghost var before := depths;
      var depth;
      depth, depths := DfsDepth(adj, rank, keys[i], depths);
      KeysStayFilled(keys, i, before, depths);
    }
    // The memo also holds unknown dependency ids, all at depth 0; they do not
    // change max(depths.values()), which is therefore the maximum over the keys.
    v := MaxBy(keys, k => Get(depths, k));
    MaxByAgree(keys, k => Get(depths, k), k => Depth(adj, rank, k));
  }

  /** A memo that only grows keeps the keys already filled. */
  lemma KeysStayFilled(keys: seq<string>, i: nat, before: map<string, nat>, after: map<string, nat>)
    requires i < |keys| && before.Keys <= after.Keys && keys[i] in after
    requires forall j :: 0 <= j < i ==> keys[j] in before
    ensures forall j :: 0 <= j < i + 1 ==> keys[j] in after
  {
  }

  // ---------------------------------------------------------------------
  // dependency_centrality_max

  /** The non-empty entries of one `depends_on` list, in order. */
  function NonEmpty(ds: seq<string>): (r: seq<string>)
    ensures forall d :: d in r <==> d in ds && d != ""
  {
    if ds == [] then []
    else
      assert ds == ds[..|ds| - 1] + [ds[|ds| - 1]];
      NonEmpty(ds[..|ds| - 1]) + (if ds[|ds| - 1] != "" then [ds[|ds| - 1]] else [])
  }

  /** Every non-empty dependency id named by the tasks, task by task, in order. */
  function DepIds(tasks: seq<Task>): (ids: seq<string>)
    ensures forall d :: d in ids ==> d != ""
  {
    if tasks == [] then []
    else DepIds(tasks[..|tasks| - 1]) + NonEmpty(tasks[|tasks| - 1].dependsOn)
  }

  /** The inner loop of `dep_counts`: one task's non-empty dependency ids fed to the counter. */
  method CountDeps(keys0: seq<string>, counts0: map<string, nat>, ghost seen: seq<string>, deps: seq<string>)
    returns (keys: seq<string>, counts: map<string, nat>)
    requires Tallies(keys0, counts0, seen)
    ensures Tallies(keys, counts, seen + NonEmpty(deps))
  {
    keys, counts := keys0, counts0;
    assert deps[..0] == [] && seen + [] == seen;
    for j := 0 to |deps|
      invariant Tallies(keys, counts, seen + NonEmpty(deps[..j]))
    {
      assert deps[..j + 1][..j] == deps[..j];
      if deps[j] != "" {
        assert seen + NonEmpty(deps[..j + 1]) == seen + NonEmpty(deps[..j]) + [deps[j]];
        BumpTallies(keys, counts, seen + NonEmpty(deps[..j]), deps[j]);
        keys := if deps[j] in counts then keys else keys + [deps[j]];
        counts := Bump(counts, deps[j]);
      } else {
        assert NonEmpty(deps[..j + 1]) == NonEmpty(deps[..j]);
      }
    }
    assert deps[..|deps|] == deps;
  }

  /** `dep_counts`: how often each non-empty id is named in a `depends_on` list. */
  method CountDependents(tasks: seq<Task>) returns (keys: seq<string>, counts: map<string, nat>)
    ensures Tallies(keys, counts, DepIds(tasks))
  {
    keys, counts := [], map[];
    EmptyTallies();
    for i := 0 to |tasks|
      invariant Tallies(keys, counts, DepIds(tasks[..i]))
    {
      assert tasks[..i + 1][..i] == tasks[..i];
      assert DepIds(tasks[..i + 1]) == DepIds(tasks[..i]) + NonEmpty(tasks[i].dependsOn);
      keys, counts := CountDeps(keys, counts, DepIds(tasks[..i]), tasks[i].dependsOn);
    }
    assert tasks[..|tasks|] == tasks;
  }

  /** The largest number of `depends_on` entries naming one id; 0 without edges. */
  function CentralityMax(tasks: seq<Task>): (v: nat)
    ensures forall d :: d != "" ==> Occ(DepIds(tasks), d) <= v
    ensures DepIds(tasks) == [] <==> v == 0
    ensures DepIds(tasks) != [] ==> exists d :: d in DepIds(tasks) && Occ(DepIds(tasks), d) == v
  {
    var ids := DepIds(tasks);
    var v := MaxBy(Distinct(ids), k => Occ(ids, k));
    assert ids != [] ==> ids[0] in Distinct(ids);
    v
  }

  // ---------------------------------------------------------------------
  // Workload: open_assigned

  /** The truthy `assigned_to` of each open task, in task order. */
  function OpenAssignees(tasks: seq<Task>): seq<string> {
    if tasks == [] then []
    else
      var t := tasks[|tasks| - 1];
      OpenAssignees(tasks[..|tasks| - 1]) + (if IsOpen(t) && Truthy(t.assignedTo) then [t.assignedTo.value] else [])
  }

  /** The counter that `for t in active_tasks: open_assigned[t.assigned_to] += 1` fills. */
  method CountOpenAssigned(tasks: seq<Task>) returns (keys: seq<string>, counts: map<string, nat>)
    ensures Tallies(keys, counts, OpenAssignees(tasks))
  {
    keys, counts := [], map[];
    EmptyTallies();
    for i := 0 to |tasks|
      invariant Tallies(keys, counts, OpenAssignees(tasks[..i]))
    {
      var t := tasks[i];
      assert tasks[..i + 1][..i] == tasks[..i];
      assert OpenAssignees(tasks[..i + 1]) ==
             OpenAssignees(tasks[..i]) + (if IsOpen(t) && Truthy(t.assignedTo) then [t.assignedTo.value] else []);
      if IsOpen(t) && Truthy(t.assignedTo) {
        BumpTallies(keys, counts, OpenAssignees(tasks[..i]), t.assignedTo.value);
        keys := if t.assignedTo.value in counts then keys else keys + [t.assignedTo.value];
        counts := Bump(counts, t.assignedTo.value);
      } else {
        assert OpenAssignees(tasks[..i + 1]) == OpenAssignees(tasks[..i]);
      }
    }
    assert tasks[..|tasks|] == tasks;
  }

  function OverloadedCount(devs: seq<Developer>, assignees: seq<string>): (n: nat)
    ensures n <= |devs|
  {
    Count(devs, (d: Developer) => Occ(assignees, d.devId) > 5)
  }

  /** `max(open_assigned.values())`: the largest number of open tasks held by one assignee. */
  function MaxDevTasks(tasks: seq<Task>): (m: nat)
    ensures m <= |OpenTasks(tasks)|
    ensures forall k :: Occ(OpenAssignees(tasks), k) <= m
    ensures OpenAssignees(tasks) == [] ==> m == 0
    ensures OpenAssignees(tasks) != [] ==> exists k :: k in OpenAssignees(tasks) && Occ(OpenAssignees(tasks), k) == m
  {
    var a := OpenAssignees(tasks);
    var m := MaxBy(Distinct(a), k => Occ(a, k));
    assert m <= |OpenTasks(tasks)| &&
           (a != [] ==> exists k :: k in a && Occ(a, k) == m) by {
      if a != [] {
        assert a[0] in Distinct(a);
        var k :| k in Distinct(a) && Occ(a, k) == m;
        OccOpenAssignees(tasks, k);
      }
    }
    m
  }

  lemma {:induction false} OccOpenAssignees(tasks: seq<Task>, k: string)
    ensures Occ(OpenAssignees(tasks), k) <= |OpenTasks(tasks)|
  {
    OpenAssigneesLength(tasks);
  }

  lemma {:induction false} OpenAssigneesLength(tasks: seq<Task>)
    ensures |OpenAssignees(tasks)| <= |OpenTasks(tasks)|
  {
    if tasks != [] {
      var init := tasks[..|tasks| - 1];
      var t := tasks[|tasks| - 1];
      OpenAssigneesLength(init);
      assert tasks == init + [t];
      OpenTasksAppend(init, t);
    }
  }

  // ---------------------------------------------------------------------
  // Counts shared with the agents

  function BlockedCount(tasks: seq<Task>): nat {
    Count(OpenTasks(tasks), (t: Task) => t.status == "blocked")
  }

  function UnassignedCount(tasks: seq<Task>): nat {
    Count(OpenTasks(tasks), (t: Task) => t.assignedTo.None?)
  }

  function OverdueCount(tasks: seq<Task>, now: int): nat {
    Count(OpenTasks(tasks), (t: Task) => t.dueDate < now)
  }

  /** Not updated for more than five days. */
  predicate IsStale(t: Task, now: int) {
    now - t.updatedAt > 5 * 24 * HOUR
  }

  function StaleCount(tasks: seq<Task>, now: int): nat {
    Count(OpenTasks(tasks), (t: Task) => IsStale(t, now))
  }

  /** The sprint's [start, end] contains `now`. */
  predicate InSprint(sp: Sprint, now: int) {
    sp.startDate <= now <= sp.endDate
  }

  /** None of the first `i` sprints contains `now`. */
  predicate NoneBefore(sprints: seq<Sprint>, now: int, i: nat)
    requires i <= |sprints|
  {
    forall j :: 0 <= j < i ==> !InSprint(sprints[j], now)
  }

  /** The first sprint whose [start, end] contains `now`. */
  function CurrentSprint(sprints: seq<Sprint>, now: int): (r: Option<Sprint>)
    ensures r.Some? ==> r.value in sprints && r.value.startDate <= now <= r.value.endDate
    ensures r.None? <==> forall sp :: sp in sprints ==> !(sp.startDate <= now <= sp.endDate)
    ensures r.Some? ==> exists i :: 0 <= i < |sprints| && sprints[i] == r.value && NoneBefore(sprints, now, i)
  {
    if sprints == [] then None
    else if sprints[0].startDate <= now <= sprints[0].endDate then
      assert NoneBefore(sprints, now, 0);
      Some(sprints[0])
    else
      var rest := CurrentSprint(sprints[1..], now);
      FirstAfterHead(sprints, sprints[1..], now, rest);
      rest
  }

  /** A first match in the tail, after a head that does not match, is a first match of the whole list. */
  lemma FirstAfterHead(sprints: seq<Sprint>, tail: seq<Sprint>, now: int, r: Option<Sprint>)
    requires sprints != [] && tail == sprints[1..] && !InSprint(sprints[0], now)
    requires r.Some? ==> exists i :: 0 <= i < |tail| && tail[i] == r.value && NoneBefore(tail, now, i)
    ensures r.Some? ==> exists i :: 0 <= i < |sprints| && sprints[i] == r.value && NoneBefore(sprints, now, i)
  {
    if r.Some? {
      var i :| 0 <= i < |tail| && tail[i] == r.value && NoneBefore(tail, now, i);
      assert sprints[i + 1] == r.value;
      forall j | 0 <= j < i + 1 ensures !InSprint(sprints[j], now) {
        if j > 0 { assert sprints[j] == tail[j - 1]; }
      }
      assert NoneBefore(sprints, now, i + 1);
    }
  }

  /** A task added to the sprint after it started, outside the baseline. */
  predicate IsMidSprintAddition(t: Task, sp: Sprint) {
    t.sprintId == sp.sprintId && t.createdAt > sp.startDate && !t.isBaseline
  }

  function MidSprintAdditions(data: ProjectData): (n: nat)
    ensures CurrentSprint(data.sprints, data.now).None? ==> n == 0
  {
    match CurrentSprint(data.sprints, data.now)
    case None => 0
    case Some(sp) => Count(data.tasks, (t: Task) => IsMidSprintAddition(t, sp))
  }

  function BaselineCount(tasks: seq<Task>): (n: nat)
    ensures n <= |tasks|
  {
    Count(tasks, (t: Task) => t.isBaseline)
  }

  /** `scope_growth_rate`: the tasks added beyond the baseline, over the baseline count; 0 without a baseline. */
  function GrowthRate(tasks: seq<Task>): (r: real)
    ensures r >= 0.0
    ensures BaselineCount(tasks) == 0 ==> r == 0.0
    ensures BaselineCount(tasks) > 0 ==> r * BaselineCount(tasks) as real == (|tasks| - BaselineCount(tasks)) as real
  {
    SafeDiv((|tasks| - BaselineCount(tasks)) as real, BaselineCount(tasks) as real)
  }

  function OrphanPrCount(prs: seq<PullRequest>): nat {
    Count(prs, (p: PullRequest) => p.taskId.None?)
  }

  function OpenPrs(prs: seq<PullRequest>): (r: seq<PullRequest>)
    ensures |r| <= |prs|
    ensures forall p :: p in r <==> p in prs && p.status == "open"
  {
    if prs == [] then []
    else (if prs[0].status == "open" then [prs[0]] else []) + OpenPrs(prs[1..])
  }

  function AgeDays(p: PullRequest, now: int): real {
    (now - p.createdAt) as real / (DAY as real)
  }

  function SumAges(prs: seq<PullRequest>, now: int): real {
    if prs == [] then 0.0 else AgeDays(prs[0], now) + SumAges(prs[1..], now)
  }

  /** Mean age in days of the open pull requests, 0 without any. */
  function AvgPrAge(prs: seq<PullRequest>, now: int): real {
    var open := OpenPrs(prs);
    if open == [] then 0.0 else SumAges(open, now) / (|open| as real)
  }

  // ---------------------------------------------------------------------
  // Communications

  predicate IsRecent(m: Message, now: int) {
    now - m.timestamp <= 72 * HOUR
  }

  /** Ids of the assignees of open tasks (`is not None`, so an empty id counts). */
  function ActiveDevIds(tasks: seq<Task>): set<string> {
    set t | t in OpenTasks(tasks) && t.assignedTo.Some? :: t.assignedTo.value
  }

  /** Senders of a message in the last 72 hours. */
  function RecentSenders(messages: seq<Message>, now: int): set<string> {
    set m | m in messages && IsRecent(m, now) :: m.userId
  }

  /** The loop filling `devs_with_recent_msgs`. */
  method CollectRecentSenders(messages: seq<Message>, now: int) returns (s: set<string>)
    ensures s == RecentSenders(messages, now)
  {
    s := {};
    for i := 0 to |messages|
      invariant s == RecentSenders(messages[..i], now)
    {
      assert messages[..i + 1] == messages[..i] + [messages[i]];
      if IsRecent(messages[i], now) {
        s := s + {messages[i].userId};
      }
    }
    assert messages[..|messages|] == messages;
  }

  function SilentDevCount(tasks: seq<Task>, messages: seq<Message>, now: int): (n: nat)
    ensures n <= |ActiveDevIds(tasks)|
  {
    |ActiveDevIds(tasks) - RecentSenders(messages, now)|
  }

  function ThreadIds(messages: seq<Message>): (ids: seq<string>)
    ensures |ids| == |messages|
    ensures forall i :: 0 <= i < |messages| ==> ids[i] == messages[i].threadId
  {
    seq(|messages|, i requires 0 <= i < |messages| => messages[i].threadId)
  }

  /** The loop filling `thread_msg_counts`. */
  method CountThreadMessages(messages: seq<Message>) returns (keys: seq<string>, counts: map<string, nat>)
    ensures Tallies(keys, counts, ThreadIds(messages))
  {
    keys, counts := [], map[];
    EmptyTallies();
    for i := 0 to |messages|
      invariant Tallies(keys, counts, ThreadIds(messages[..i]))
    {
      assert ThreadIds(messages[..i + 1]) == ThreadIds(messages[..i]) + [messages[i].threadId];
      BumpTallies(keys, counts, ThreadIds(messages[..i]), messages[i].threadId);
      keys := if messages[i].threadId in counts then keys else keys + [messages[i].threadId];
      counts := Bump(counts, messages[i].threadId);
    }
    assert messages[..|messages|] == messages;
  }

  /** Threads with exactly one message, among the `threads` distinct thread ids of `ids`. */
  function SingleMessageThreads(ids: seq<string>): (n: nat)
    ensures n <= |Distinct(ids)|
  {
    Count(Distinct(ids), k => Occ(ids, k) == 1)
  }

  function EscalationCount(messages: seq<Message>, now: int): nat {
    Count(messages, (m: Message) => m.containsTriggerWord && IsRecent(m, now))
  }

  // ---------------------------------------------------------------------
  // The fifteen signals

  /** One dictionary entry: the raw value and its score, the value over its normaliser, clamped. */
  function Entry(value: real, normaliser: real): (e: SignalValue)
    requires normaliser > 0.0
    ensures e.value == value && 0.0 <= e.score <= 1.0
    ensures e.score == Limit(value / normaliser)
  {
    SignalValue(value, Limit(value / normaliser))
  }

  /** Entry `k` of `s` holds `value`, scored as `value` over `normaliser`, clamped. */
  predicate Carries(s: Signals, k: string, value: real, normaliser: real)
    requires normaliser > 0.0
  {
    k in s && s[k].value == value && s[k].score == Limit(value / normaliser)
  }

  /** The raw values, before they are put in the dictionary. */
  datatype Raw = Raw(
    blocked: real, critPath: real, centrality: real, overload: real, concentration: real,
    unassigned: real, midSprint: real, growth: real, orphans: real, overdue: real,
    stale: real, avgAge: real, silent: real, unanswered: real, escalations: real)

  /** The fifteen raw values of `data`, from the values the loops computed. */
  function RawValues(data: ProjectData, critPath: nat, centrality: nat,
                     openAssignees: seq<string>, maxDevTasks: nat,
                     recent: set<string>, unanswered: nat, threads: nat): (v: Raw)
    requires maxDevTasks <= |OpenTasks(data.tasks)|
    requires unanswered <= threads
    ensures v.blocked == Ratio(BlockedCount(data.tasks), |OpenTasks(data.tasks)|)
    ensures v.unassigned == Ratio(UnassignedCount(data.tasks), |OpenTasks(data.tasks)|)
    ensures v.overdue == Ratio(OverdueCount(data.tasks, data.now), |OpenTasks(data.tasks)|)
    ensures v.stale == Ratio(StaleCount(data.tasks, data.now), |OpenTasks(data.tasks)|)
    ensures v.concentration == Ratio(maxDevTasks, |OpenTasks(data.tasks)|)
    ensures v.overload == Ratio(OverloadedCount(data.developers, openAssignees), |data.developers|)
    ensures v.unanswered == Ratio(unanswered, threads)
    ensures v.silent == SafeDiv(|ActiveDevIds(data.tasks) - recent| as real, |ActiveDevIds(data.tasks)| as real)
    ensures v.critPath == critPath as real && v.centrality == centrality as real
    ensures v.midSprint == MidSprintAdditions(data) as real
    ensures v.orphans == OrphanPrCount(data.pullRequests) as real
    ensures v.escalations == EscalationCount(data.messages, data.now) as real
    ensures v.avgAge == AvgPrAge(data.pullRequests, data.now)
    ensures v.growth == GrowthRate(data.tasks)
  {
    var tasks := data.tasks;
    var active := |OpenTasks(tasks)|;
    Raw(
      Ratio(BlockedCount(tasks), active),
      critPath as real,
      centrality as real,
      Ratio(OverloadedCount(data.developers, openAssignees), |data.developers|),
      Ratio(maxDevTasks, active),
      Ratio(UnassignedCount(tasks), active),
      MidSprintAdditions(data) as real,
      GrowthRate(tasks),
      OrphanPrCount(data.pullRequests) as real,
      Ratio(OverdueCount(tasks, data.now), active),
      Ratio(StaleCount(tasks, data.now), active),
      AvgPrAge(data.pullRequests, data.now),
      SafeDiv(|ActiveDevIds(tasks) - recent| as real, |ActiveDevIds(tasks)| as real),
      Ratio(unanswered, threads),
      EscalationCount(data.messages, data.now) as real)
  }

  /** The result dictionary, keyed in the source's order, with each score normalised. */
  function ToSignals(v: Raw): (s: Signals)
    ensures s.Keys == set k | k in SIGNAL_KEYS
    ensures forall k :: k in s ==> 0.0 <= s[k].score <= 1.0
  {
    map[
      BLOCKED_TASK_RATIO := Entry(v.blocked, 0.40),
      CRITICAL_PATH_DEPTH := Entry(v.critPath, 6.0),
      DEPENDENCY_CENTRALITY_MAX := Entry(v.centrality, 5.0),
      OVERLOADED_DEV_RATIO := Entry(v.overload, 0.50),
      TASK_CONCENTRATION_INDEX := Entry(v.concentration, 0.40),
      UNASSIGNED_TASK_RATIO := Entry(v.unassigned, 0.30),
      MID_SPRINT_TASK_ADDITIONS := Entry(v.midSprint, 8.0),
      SCOPE_GROWTH_RATE := Entry(v.growth, 0.40),
      OUT_OF_SCOPE_PR_COUNT := Entry(v.orphans, 5.0),
      OVERDUE_TASK_RATIO := Entry(v.overdue, 0.50),
      STALE_TASK_RATIO := Entry(v.stale, 0.60),
      AVG_PR_AGE_DAYS := Entry(v.avgAge, 15.0),
      SILENT_DEV_RATIO := Entry(v.silent, 0.50),
      UNANSWERED_THREAD_RATIO := Entry(v.unanswered, 0.40),
      ESCALATION_KEYWORD_COUNT := Entry(v.escalations, 10.0)
    ]
  }

  /** The dependency agent's three entries hold their raw values, each scored over its normaliser. */
  lemma DependencyEntries(v: Raw)
    ensures Carries(ToSignals(v), BLOCKED_TASK_RATIO, v.blocked, 0.40)
    ensures Carries(ToSignals(v), CRITICAL_PATH_DEPTH, v.critPath, 6.0)
    ensures Carries(ToSignals(v), DEPENDENCY_CENTRALITY_MAX, v.centrality, 5.0)
  {
  }

  /** The workload agent's three entries hold their raw values, each scored over its normaliser. */
  lemma WorkloadEntries(v: Raw)
    ensures Carries(ToSignals(v), OVERLOADED_DEV_RATIO, v.overload, 0.50)
    ensures Carries(ToSignals(v), TASK_CONCENTRATION_INDEX, v.concentration, 0.40)
    ensures Carries(ToSignals(v), UNASSIGNED_TASK_RATIO, v.unassigned, 0.30)
  {
  }

  /** The scope agent's three entries hold their raw values, each scored over its normaliser. */
  lemma ScopeEntries(v: Raw)
    ensures Carries(ToSignals(v), MID_SPRINT_TASK_ADDITIONS, v.midSprint, 8.0)
    ensures Carries(ToSignals(v), SCOPE_GROWTH_RATE, v.growth, 0.40)
    ensures Carries(ToSignals(v), OUT_OF_SCOPE_PR_COUNT, v.orphans, 5.0)
  {
  }

  /** The delay agent's three entries hold their raw values, each scored over its normaliser. */
  lemma DelayEntries(v: Raw)
    ensures Carries(ToSignals(v), OVERDUE_TASK_RATIO, v.overdue, 0.50)
    ensures Carries(ToSignals(v), STALE_TASK_RATIO, v.stale, 0.60)
    ensures Carries(ToSignals(v), AVG_PR_AGE_DAYS, v.avgAge, 15.0)
  {
  }

  /** The comms agent's three entries hold their raw values, each scored over its normaliser. */
  lemma CommsEntries(v: Raw)
    ensures Carries(ToSignals(v), SILENT_DEV_RATIO, v.silent, 0.50)
    ensures Carries(ToSignals(v), UNANSWERED_THREAD_RATIO, v.unanswered, 0.40)
    ensures Carries(ToSignals(v), ESCALATION_KEYWORD_COUNT, v.escalations, 10.0)
  {
  }

  /** The raw values `extract_signals` computes. */
  function RawSignals(data: ProjectData, ghost rank: map<string, nat>): (v: Raw)
    requires Ranked(Adjacency(data.tasks), rank)
    ensures v.critPath == CriticalPath(data.tasks, rank) as real
    ensures v.centrality == CentralityMax(data.tasks) as real
    ensures v.silent == SafeDiv(SilentDevCount(data.tasks, data.messages, data.now) as real,
                                |ActiveDevIds(data.tasks)| as real)
    ensures v.unanswered == Ratio(SingleMessageThreads(ThreadIds(data.messages)), |Distinct(ThreadIds(data.messages))|)
    ensures v.concentration == Ratio(MaxDevTasks(data.tasks), |OpenTasks(data.tasks)|)
    ensures v.blocked == Ratio(BlockedCount(data.tasks), |OpenTasks(data.tasks)|)
    ensures v.unassigned == Ratio(UnassignedCount(data.tasks), |OpenTasks(data.tasks)|)
    ensures v.overdue == Ratio(OverdueCount(data.tasks, data.now), |OpenTasks(data.tasks)|)
    ensures v.stale == Ratio(StaleCount(data.tasks, data.now), |OpenTasks(data.tasks)|)
    ensures v.overload == Ratio(OverloadedCount(data.developers, OpenAssignees(data.tasks)), |data.developers|)
    ensures v.midSprint == MidSprintAdditions(data) as real
    ensures v.growth == GrowthRate(data.tasks)
    ensures v.orphans == OrphanPrCount(data.pullRequests) as real
    ensures v.avgAge == AvgPrAge(data.pullRequests, data.now)
    ensures v.escalations == EscalationCount(data.messages, data.now) as real
  {
    RawValues(data, CriticalPath(data.tasks, rank), CentralityMax(data.tasks),
              OpenAssignees(data.tasks), MaxDevTasks(data.tasks),
              RecentSenders(data.messages, data.now),
              SingleMessageThreads(ThreadIds(data.messages)), |Distinct(ThreadIds(data.messages))|)
  }

  /** `extract_signals(data)`: the dictionary of the fifteen signals, and the simulated time. */
  function ExtractSignals(data: ProjectData, ghost rank: map<string, nat>): (r: SignalResult)
    requires Ranked(Adjacency(data.tasks), rank)
    ensures r.signals.Keys == set k | k in SIGNAL_KEYS
    ensures forall k :: k in r.signals ==> 0.0 <= r.signals[k].score <= 1.0
    ensures r.simulatedNow == data.simulatedNow
    ensures Carries(r.signals, BLOCKED_TASK_RATIO, Ratio(BlockedCount(data.tasks), |OpenTasks(data.tasks)|), 0.40)
    ensures Carries(r.signals, CRITICAL_PATH_DEPTH, CriticalPath(data.tasks, rank) as real, 6.0)
    ensures Carries(r.signals, DEPENDENCY_CENTRALITY_MAX, CentralityMax(data.tasks) as real, 5.0)
    ensures Carries(r.signals, OVERLOADED_DEV_RATIO,
                    Ratio(OverloadedCount(data.developers, OpenAssignees(data.tasks)), |data.developers|), 0.50)
    ensures Carries(r.signals, TASK_CONCENTRATION_INDEX, Ratio(MaxDevTasks(data.tasks), |OpenTasks(data.tasks)|), 0.40)
    ensures Carries(r.signals, UNASSIGNED_TASK_RATIO, Ratio(UnassignedCount(data.tasks), |OpenTasks(data.tasks)|), 0.30)
    ensures Carries(r.signals, MID_SPRINT_TASK_ADDITIONS, MidSprintAdditions(data) as real, 8.0)
    ensures Carries(r.signals, SCOPE_GROWTH_RATE,
                    GrowthRate(data.tasks), 0.40)
    ensures Carries(r.signals, OUT_OF_SCOPE_PR_COUNT, OrphanPrCount(data.pullRequests) as real, 5.0)
    ensures Carries(r.signals, OVERDUE_TASK_RATIO, Ratio(OverdueCount(data.tasks, data.now), |OpenTasks(data.tasks)|), 0.50)
    ensures Carries(r.signals, STALE_TASK_RATIO, Ratio(StaleCount(data.tasks, data.now), |OpenTasks(data.tasks)|), 0.60)
    ensures Carries(r.signals, AVG_PR_AGE_DAYS, AvgPrAge(data.pullRequests, data.now), 15.0)
    ensures Carries(r.signals, SILENT_DEV_RATIO,
                    SafeDiv(SilentDevCount(data.tasks, data.messages, data.now) as real, |ActiveDevIds(data.tasks)| as real), 0.50)
    ensures Carries(r.signals, UNANSWERED_THREAD_RATIO,
                    Ratio(SingleMessageThreads(ThreadIds(data.messages)), |Distinct(ThreadIds(data.messages))|), 0.40)
    ensures Carries(r.signals, ESCALATION_KEYWORD_COUNT, EscalationCount(data.messages, data.now) as real, 10.0)
  {
    var v := RawSignals(data, rank);
    DependencyEntries(v); WorkloadEntries(v); ScopeEntries(v); DelayEntries(v); CommsEntries(v);
    SignalResult(ToSignals(v), data.simulatedNow)
  }

  /** The extraction as the source runs it: loops filling dictionaries, then the formulas. */
  method Extract(data: ProjectData, ghost rank: map<string, nat>) returns (r: SignalResult)
    requires Ranked(Adjacency(data.tasks), rank)
    ensures r == ExtractSignals(data, rank)
  {
    var critPath := ComputeCriticalPath(data.tasks, rank);
    var depKeys, depCounts := CountDependents(data.tasks);
    var centrality := MaxBy(depKeys, k => Get(depCounts, k));
    MaxByAgree(depKeys, k => Get(depCounts, k), k => Occ(DepIds(data.tasks), k));
    assert centrality == CentralityMax(data.tasks);
    var devKeys, devCounts := CountOpenAssigned(data.tasks);
    var maxDev := MaxBy(devKeys, k => Get(devCounts, k));
    MaxByAgree(devKeys, k => Get(devCounts, k), k => Occ(OpenAssignees(data.tasks), k));
    assert maxDev == MaxDevTasks(data.tasks);
    var recent := CollectRecentSenders(data.messages, data.now);
    var threadKeys, threadCounts := CountThreadMessages(data.messages);
    var unanswered := Count(threadKeys, k => Get(threadCounts, k) == 1);
    CountAgree(threadKeys, k => Get(threadCounts, k) == 1, k => Occ(ThreadIds(data.messages), k) == 1);
    assert unanswered == SingleMessageThreads(ThreadIds(data.messages));
    var raw := RawValues(data, critPath, centrality, OpenAssignees(data.tasks), maxDev, recent, unanswered, |threadKeys|);
    assert raw == RawSignals(data, rank);
    r := SignalResult(ToSignals(raw), data.simulatedNow);
  }
}
