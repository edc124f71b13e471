/**
 * The project-state records every server component reads (tasks, pull
 * requests, developers, messages, sprints), the signal and agent-result
 * records they produce, and the fixed key lists. Timestamps are whole
 * seconds; the ISO-8601 text of `simulated_now` is kept beside its value
 * because the server copies that text into its results.
 */
module Records {
  import opened Wrappers

  datatype Task = Task(
    taskId: string,
    status: string,
    dependsOn: seq<string>,
    assignedTo: Option<string>,
    sprintId: string,
    createdAt: int,
    dueDate: int,
    updatedAt: int,
    isBaseline: bool)

  datatype PullRequest = PullRequest(
    prId: string,
    taskId: Option<string>,
    status: string,
    createdAt: int,
    mergedAt: Option<string>)

  datatype Developer = Developer(devId: string, name: Option<string>, role: string)

  /** `d.get("name", dev_id)`: the name, or the id when there is none. */
  function DisplayName(d: Developer): string {
    d.name.GetOr(d.devId)
  }

  datatype Message = Message(userId: string, threadId: string, timestamp: int, containsTriggerWord: bool)

  datatype Sprint = Sprint(sprintId: string, startDate: int, endDate: int)

  datatype ProjectData = ProjectData(
    simulatedNow: string,  // metadata.simulated_now as written
    now: int,              // the same instant, in seconds
    tasks: seq<Task>,
    pullRequests: seq<PullRequest>,
    developers: seq<Developer>,
    messages: seq<Message>,
    sprints: seq<Sprint>)

  const DAY: int := 86400
  const HOUR: int := 3600

  /** A task counts as open (active) unless its status is exactly "done". */
  predicate IsOpen(t: Task) {
    t.status != "done"
  }

  /** Python truthiness of an optional string: present and non-empty. */
  predicate Truthy(o: Option<string>) {
    o.Some? && o.value != ""
  }

  function OpenTasks(tasks: seq<Task>): (r: seq<Task>)
    ensures |r| <= |tasks|
    ensures forall t :: t in r <==> t in tasks && IsOpen(t)
  {
    if tasks == [] then []
    else (if IsOpen(tasks[0]) then [tasks[0]] else []) + OpenTasks(tasks[1..])
  }

  // ---------------------------------------------------------------------
  // Signals

  datatype SignalValue = SignalValue(value: real, score: real)

  type Signals = map<string, SignalValue>

  /** The output of `extract_signals`: the signal map and the echoed metadata. */
  datatype SignalResult = SignalResult(signals: Signals, simulatedNow: string)

  const BLOCKED_TASK_RATIO := "blocked_task_ratio"
  const CRITICAL_PATH_DEPTH := "critical_path_depth"
  const DEPENDENCY_CENTRALITY_MAX := "dependency_centrality_max"
  const OVERLOADED_DEV_RATIO := "overloaded_dev_ratio"
  const TASK_CONCENTRATION_INDEX := "task_concentration_index"
  const UNASSIGNED_TASK_RATIO := "unassigned_task_ratio"
  const MID_SPRINT_TASK_ADDITIONS := "mid_sprint_task_additions"
  const SCOPE_GROWTH_RATE := "scope_growth_rate"
  const OUT_OF_SCOPE_PR_COUNT := "out_of_scope_pr_count"
  const OVERDUE_TASK_RATIO := "overdue_task_ratio"
  const STALE_TASK_RATIO := "stale_task_ratio"
  const AVG_PR_AGE_DAYS := "avg_pr_age_days"
  const SILENT_DEV_RATIO := "silent_dev_ratio"
  const UNANSWERED_THREAD_RATIO := "unanswered_thread_ratio"
  const ESCALATION_KEYWORD_COUNT := "escalation_keyword_count"

  /** The fifteen signal keys, three per agent, in the order the server emits them. */
  const SIGNAL_KEYS: seq<string> := [
    BLOCKED_TASK_RATIO, CRITICAL_PATH_DEPTH, DEPENDENCY_CENTRALITY_MAX,
    OVERLOADED_DEV_RATIO, TASK_CONCENTRATION_INDEX, UNASSIGNED_TASK_RATIO,
    MID_SPRINT_TASK_ADDITIONS, SCOPE_GROWTH_RATE, OUT_OF_SCOPE_PR_COUNT,
    OVERDUE_TASK_RATIO, STALE_TASK_RATIO, AVG_PR_AGE_DAYS,
    SILENT_DEV_RATIO, UNANSWERED_THREAD_RATIO, ESCALATION_KEYWORD_COUNT]

  /** `signals.get(name, {}).get("score", 0.0)`: a missing signal scores 0. */
  function ScoreOf(signals: Signals, name: string): real {
    if name in signals then signals[name].score else 0.0
  }

  /** `signals.get(name, {"value": 0.0, ...})["value"]`: a missing signal has value 0. */
  function ValueOf(signals: Signals, name: string): real {
    if name in signals then signals[name].value else 0.0
  }

  // ---------------------------------------------------------------------
  // Agent results

  datatype AgentResult = AgentResult(
    agent: string,
    riskContribution: real,
    confidence: real,
    topRisks: seq<string>,
    evidence: seq<string>,
    reasoning: string,
    signalRefs: seq<string>)

  /** The five agent keys in the order the server runs them. */
  const AGENT_KEYS: seq<string> := ["dependency", "workload", "scope", "delay", "comms"]

  /** The five keys by name. */
  lemma KeysListed()
    ensures AGENT_KEYS[0] == "dependency" && AGENT_KEYS[1] == "workload" && AGENT_KEYS[2] == "scope"
    ensures AGENT_KEYS[3] == "delay" && AGENT_KEYS[4] == "comms"
    ensures "dependency" in AGENT_KEYS && "workload" in AGENT_KEYS && "scope" in AGENT_KEYS
    ensures "delay" in AGENT_KEYS && "comms" in AGENT_KEYS
  {
  }

  /** No key is listed twice, so a key names one position. */
  lemma KeysDistinct(a: nat, b: nat)
    requires a < |AGENT_KEYS| && b < |AGENT_KEYS| && AGENT_KEYS[a] == AGENT_KEYS[b]
    ensures a == b
  {
    var k := AGENT_KEYS;
    assert k[0][0] == 'd' && k[1][0] == 'w' && k[2][0] == 's' && k[3][0] == 'd' && k[4][0] == 'c';
    assert k[0][2] == 'p' && k[3][2] == 'l' && k[2][1] == 'c';
  }

  /** Mean of three signal scores, a missing one counting as 0. */
  function MeanScore(signals: Signals, a: string, b: string, c: string): real {
    (ScoreOf(signals, a) + ScoreOf(signals, b) + ScoreOf(signals, c)) / 3.0
  }

  /** Number of elements of `s` satisfying `p`: what `sum(1 for x in s if p(x))` computes. */
  function Count<T>(s: seq<T>, p: T -> bool): (n: nat)
    ensures n <= |s|
  {
    if s == [] then 0 else (if p(s[0]) then 1 else 0) + Count(s[1..], p)
  }

  /** Counting over a sequence extended at the end. */
  lemma {:induction false} CountSnoc<T>(s: seq<T>, x: T, p: T -> bool)
    ensures Count(s + [x], p) == Count(s, p) + (if p(x) then 1 else 0)
  {
    if s == [] {
      assert [] + [x] == [x];
    } else {
      assert (s + [x])[1..] == s[1..] + [x];
      CountSnoc(s[1..], x, p);
    }
  }

  /** Conditions that agree on the elements give the same count. */
  lemma {:induction false} CountAgree<T>(s: seq<T>, p: T -> bool, q: T -> bool)
    requires forall x :: x in s ==> p(x) == q(x)
    ensures Count(s, p) == Count(s, q)
  {
    if s != [] {
      assert forall x :: x in s[1..] ==> x in s;
      CountAgree(s[1..], p, q);
    }
  }

  /** Counting a stronger condition never gives more. */
  lemma {:induction false} CountMonotone<T>(s: seq<T>, p: T -> bool, q: T -> bool)
    requires forall x :: p(x) ==> q(x)
    ensures Count(s, p) <= Count(s, q)
  {
    if s != [] {
      CountMonotone(s[1..], p, q);
    }
  }

  lemma {:induction false} OpenTasksAppend(init: seq<Task>, t: Task)
    ensures OpenTasks(init + [t]) == OpenTasks(init) + (if IsOpen(t) then [t] else [])
  {
    var tail := if IsOpen(t) then [t] else [];
    if init == [] {
      assert init + [t] == [t];
    } else {
      var head := if IsOpen(init[0]) then [init[0]] else [];
      calc {
        OpenTasks(init + [t]);
        { assert (init + [t])[0] == init[0]; }
        head + OpenTasks((init + [t])[1..]);
        { assert (init + [t])[1..] == init[1..] + [t]; }
        head + OpenTasks(init[1..] + [t]);
        { OpenTasksAppend(init[1..], t); }
        head + (OpenTasks(init[1..]) + tail);
        (head + OpenTasks(init[1..])) + tail;
        OpenTasks(init) + tail;
      }
    }
  }

  /** Counting over the open tasks is counting the open tasks that satisfy the condition. */
  lemma {:induction false} CountOpen(tasks: seq<Task>, p: Task -> bool)
    ensures Count(OpenTasks(tasks), p) == Count(tasks, t => IsOpen(t) && p(t))
  {
    if tasks != [] {
      CountOpen(tasks[1..], p);
      var rest := OpenTasks(tasks[1..]);
      if IsOpen(tasks[0]) {
        assert OpenTasks(tasks) == [tasks[0]] + rest;
        assert ([tasks[0]] + rest)[1..] == rest;
      } else {
        assert OpenTasks(tasks) == rest;
      }
    }
  }
}
