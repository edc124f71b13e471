/**
 * agents/dependency_agent.py: the dependency agent's deterministic part. The
 * risk contribution and confidence come from the three dependency signals;
 * the evidence names the task with the most dependents (the `dep_counts`
 * counter), the longest dependency chain (the memoised `get_longest_path`)
 * and the blocked-task count; the model's reply is parsed with the shared
 * fallback.
 */
module DependencyAgent {
  import opened Wrappers
  import opened Text
  import opened Records
  import opened Tally
  import opened SignalExtractor
  import opened RiskFormula
  import opened LlmReply

  const AGENT := "dependency_agent"
  const SIGNAL_REFS := [BLOCKED_TASK_RATIO, CRITICAL_PATH_DEPTH, DEPENDENCY_CENTRALITY_MAX]

  /** The mean of the three dependency scores: the same number the risk formula uses for "dependency". */
  function RiskContribution(signals: Signals): (r: real)
    ensures r == AgentScores(signals)["dependency"]
    ensures ScoresInRange(signals) ==> 0.0 <= r <= 1.0
  {
    assert ScoresInRange(signals) ==> 0.0 <= AgentScores(signals)["dependency"] <= 1.0 by {
      if ScoresInRange(signals) { AgentScoresInRange(signals); }
    }
    MeanScore(signals, BLOCKED_TASK_RATIO, CRITICAL_PATH_DEPTH, DEPENDENCY_CENTRALITY_MAX)
  }

  /** 0.2 less confidence when few tasks are blocked. */
  function Confidence(signals: Signals): (c: real)
    ensures c == 0.8 <==> ScoreOf(signals, BLOCKED_TASK_RATIO) < 0.3
    ensures c == 1.0 <==> ScoreOf(signals, BLOCKED_TASK_RATIO) >= 0.3
  {
    1.0 - (if ScoreOf(signals, BLOCKED_TASK_RATIO) < 0.3 then 0.2 else 0.0)
  }

  // ---------------------------------------------------------------------
  // The task with most dependents

  /** `max(dep_counts, key=dep_counts.get)`: the first id, in order of first mention, named most often. */
  function MostDependents(tasks: seq<Task>): (r: Option<string>)
    ensures r.None? <==> DepIds(tasks) == []
    ensures r.Some? ==> r.value != "" && Occ(DepIds(tasks), r.value) == CentralityMax(tasks)
    ensures r.Some? ==> exists i :: 0 <= i < |Distinct(DepIds(tasks))| && Distinct(DepIds(tasks))[i] == r.value &&
                          forall j :: 0 <= j < i ==> Occ(DepIds(tasks), Distinct(DepIds(tasks))[j]) < CentralityMax(tasks)
  {
    var ids := DepIds(tasks);
    var f := k => Occ(ids, k);
    assert ids != [] ==> ids[0] in Distinct(ids);
    assert MaxBy(Distinct(ids), f) == CentralityMax(tasks);
    var r := ArgMaxBy(Distinct(ids), f);
    assert r.Some? ==> r.value in ids;
    r
  }

  /** The counter loop followed by `max`: the same task as `MostDependents`. */
  method FindMostDependents(tasks: seq<Task>) returns (r: Option<string>, count: nat)
    ensures r == MostDependents(tasks)
    ensures count == CentralityMax(tasks)
  {
    var keys, counts := CountDependents(tasks);
    var ids := DepIds(tasks);
    ArgMaxByAgree(keys, k => Get(counts, k), k => Occ(ids, k));
    MaxByAgree(keys, k => Get(counts, k), k => Occ(ids, k));
    r := ArgMaxBy(keys, k => Get(counts, k));
    count := if r.Some? then counts[r.value] else 0;
  }

  // ---------------------------------------------------------------------
  // The longest dependency chain

  /**
   * `get_longest_path(node)`: the node followed by the longest path among its
   * known dependencies (the first of equal length); unknown dependencies are
   * skipped.
   */
  function LongestPath(adj: map<string, seq<string>>, ghost rank: map<string, nat>, n: string): (p: seq<string>)
    requires Ranked(adj, rank)
    ensures p != [] && p[0] == n
    ensures IsChain(adj, p)
    ensures forall i :: 0 < i < |p| ==> p[i] in adj
    decreases Height(adj, rank, n), if n in adj then |adj[n]| + 1 else 0
  {
    if n !in adj || adj[n] == [] then [n]
    else
      var b := BestPath(adj, rank, n, adj[n]);
      var p := [n] + b;
      assert forall i :: 0 < i < |p| ==> p[i] == b[i - 1];
      p
  }

  /** The longest path among the known ids of `deps`, the first one on ties; [] without any. */
  function BestPath(adj: map<string, seq<string>>, ghost rank: map<string, nat>, parent: string, deps: seq<string>): (p: seq<string>)
    requires Ranked(adj, rank) && parent in adj
    requires forall d :: d in deps ==> d in adj[parent]
    ensures p != [] ==> p[0] in deps && p[0] in adj
    ensures IsChain(adj, p)
    ensures forall i :: 0 < i < |p| ==> p[i] in adj
    decreases Height(adj, rank, parent), |deps|
  {
    if deps == [] then []
    else
      var b := BestPath(adj, rank, parent, deps[..|deps| - 1]);
      var d := deps[|deps| - 1];
      if d in adj then
        var q := LongestPath(adj, rank, d);
        if |q| > |b| then q else b
      else b
  }

  /** Every known dependency's longest path is no longer than the best path among them. */
  lemma {:induction false} BestAtLeast(adj: map<string, seq<string>>, rank: map<string, nat>, parent: string,
                                       deps: seq<string>, d: string)
    requires Ranked(adj, rank) && parent in adj
    requires forall x :: x in deps ==> x in adj[parent]
    requires d in deps && d in adj
    ensures |LongestPath(adj, rank, d)| <= |BestPath(adj, rank, parent, deps)|
    decreases |deps|
  {
    var init := deps[..|deps| - 1];
    assert deps == init + [deps[|deps| - 1]];
    if d != deps[|deps| - 1] {
      assert d in init;
      BestAtLeast(adj, rank, parent, init, d);
    }
  }

  /** `get_longest_path(n)` is at least as long as every chain of known tasks starting at n. */
  lemma {:induction false} LongestPathIsLongest(adj: map<string, seq<string>>, rank: map<string, nat>, c: seq<string>)
    requires Ranked(adj, rank)
    requires c != [] && IsChain(adj, c)
    requires forall i :: 0 < i < |c| ==> c[i] in adj
    ensures |c| <= |LongestPath(adj, rank, c[0])|
    decreases |c|
  {
    if |c| > 1 {
      var tail := c[1..];
      assert IsChain(adj, tail) by {
        forall i | 0 <= i < |tail| - 1 ensures tail[i] in adj && tail[i + 1] in adj[tail[i]] {
          assert tail[i] == c[i + 1] && tail[i + 1] == c[i + 2];
        }
      }
      assert forall i :: 0 < i < |tail| ==> tail[i] == c[i + 1];
      LongestPathIsLongest(adj, rank, tail);
      assert c[0] in adj && c[1] in adj[c[0]];
      BestAtLeast(adj, rank, c[0], adj[c[0]], c[1]);
    }
  }

  ghost predicate PathMemoSound(adj: map<string, seq<string>>, rank: map<string, nat>, memo: map<string, seq<string>>)
    requires Ranked(adj, rank)
  {
    forall k :: k in memo ==> memo[k] == LongestPath(adj, rank, k)
  }

  /** The memoised `get_longest_path`. */
  method GetLongestPath(adj: map<string, seq<string>>, ghost rank: map<string, nat>, node: string, memo: map<string, seq<string>>)
    returns (p: seq<string>, memo': map<string, seq<string>>)
    requires Ranked(adj, rank) && PathMemoSound(adj, rank, memo)
    ensures p == LongestPath(adj, rank, node)
    ensures PathMemoSound(adj, rank, memo') && memo.Keys <= memo'.Keys && node in memo'
    decreases Height(adj, rank, node)
  {
    if node in memo {
      return memo[node], memo;
    }
    var deps := if node in adj then adj[node] else [];
    if deps == [] {
      return [node], memo[node := [node]];
    }
    var maxPath := [];
    memo' := memo;
    for i := 0 to |deps|
      invariant maxPath == BestPath(adj, rank, node, deps[..i])
      invariant PathMemoSound(adj, rank, memo') && memo.Keys <= memo'.Keys
    {
      assert deps[..i + 1][..i] == deps[..i];
      if deps[i] in adj {
        var q;
        q, memo' := GetLongestPath(adj, rank, deps[i], memo');
        if |q| > |maxPath| {
          maxPath := q;
        }
      }
    }
    assert deps[..|deps|] == deps;
    p := [node] + maxPath;
    memo' := memo'[node := p];
  }

  /** The longest of the paths from `keys`, the first one on ties; [] for no keys. */
  function LongestAmong(adj: map<string, seq<string>>, ghost rank: map<string, nat>, keys: seq<string>): (c: seq<string>)
    requires Ranked(adj, rank)
    ensures c == [] <==> keys == []
    ensures c != [] ==> c[0] in keys && c == LongestPath(adj, rank, c[0])
    ensures forall k :: k in keys ==> |LongestPath(adj, rank, k)| <= |c|
  {
    if keys == [] then []
    else
      assert keys == keys[..|keys| - 1] + [keys[|keys| - 1]];
      var b := LongestAmong(adj, rank, keys[..|keys| - 1]);
      var p := LongestPath(adj, rank, keys[|keys| - 1]);
      if |p| > |b| then p else b
  }

  /** `longest_chain`: the longest path from any task, over the task ids in dictionary order. */
  function LongestChain(tasks: seq<Task>, ghost rank: map<string, nat>): (c: seq<string>)
    requires Ranked(Adjacency(tasks), rank)
    ensures c == [] <==> tasks == []
    ensures IsChain(Adjacency(tasks), c)
    ensures forall i :: 0 <= i < |c| ==> c[i] in Adjacency(tasks)
    ensures forall t :: t in tasks ==> |LongestPath(Adjacency(tasks), rank, t.taskId)| <= |c|
  {
    var adj := Adjacency(tasks);
    var keys := Distinct(TaskIds(tasks));
    assert tasks != [] ==> TaskIds(tasks)[0] in keys;
    assert forall t :: t in tasks ==> t.taskId in keys by {
      forall t | t in tasks ensures t.taskId in keys {
        var i :| 0 <= i < |tasks| && tasks[i] == t;
        assert TaskIds(tasks)[i] == t.taskId;
      }
    }
    LongestAmong(adj, rank, keys)
  }

  /** No chain of known tasks starting at a task is longer than the reported longest chain. */
  lemma LongestChainIsLongest(tasks: seq<Task>, rank: map<string, nat>, c: seq<string>)
    requires Ranked(Adjacency(tasks), rank)
    requires c != [] && IsChain(Adjacency(tasks), c)
    requires forall i :: 0 <= i < |c| ==> c[i] in Adjacency(tasks)
    ensures |c| <= |LongestChain(tasks, rank)|
  {
    var adj := Adjacency(tasks);
    LongestPathIsLongest(adj, rank, c);
    var i :| 0 <= i < |tasks| && tasks[i].taskId == c[0];
    assert tasks[i] in tasks;
  }

  /** The chain has no more edges than the critical path depth the extractor reports. */
  lemma ChainWithinCriticalPath(tasks: seq<Task>, rank: map<string, nat>)
    requires Ranked(Adjacency(tasks), rank)
    ensures |LongestChain(tasks, rank)| <= CriticalPath(tasks, rank) + 1
  {
    var adj := Adjacency(tasks);
    var c := LongestChain(tasks, rank);
    if c != [] {
      assert c[0] in TaskIds(tasks);
      var i :| 0 <= i < |tasks| && TaskIds(tasks)[i] == c[0];
      assert tasks[i] in tasks;
      ChainWithinDepth(adj, rank, c);
    }
  }

  /** The loop over `adj`, each path from the shared memo. */
  method FindLongestChain(tasks: seq<Task>, ghost rank: map<string, nat>) returns (chain: seq<string>)
    requires Ranked(Adjacency(tasks), rank)
    ensures chain == LongestChain(tasks, rank)
  {
    var adj := Adjacency(tasks);
    var keys := Distinct(TaskIds(tasks));
    var memo: map<string, seq<string>> := map[];
    chain := [];
    for i := 0 to |keys|
      invariant chain == LongestAmong(adj, rank, keys[..i])
      invariant PathMemoSound(adj, rank, memo)
    {
      assert keys[..i + 1][..i] == keys[..i];
      var p;
      p, memo := GetLongestPath(adj, rank, keys[i], memo);
      if |p| > |chain| {
        chain := p;
      }
    }
    assert keys[..|keys|] == keys;
  }

  // ---------------------------------------------------------------------
  // Evidence and result

  /** What the three evidence lines report. */
  datatype Findings = Findings(mostDependents: Option<string>, dependents: nat, chain: seq<string>, blocked: nat)

  function FindingsOf(tasks: seq<Task>, ghost rank: map<string, nat>): (f: Findings)
    requires Ranked(Adjacency(tasks), rank)
    ensures f.dependents == CentralityMax(tasks)
    ensures f.mostDependents.None? <==> DepIds(tasks) == []
    ensures f.mostDependents.Some? ==> Occ(DepIds(tasks), f.mostDependents.value) == f.dependents
    ensures |f.chain| <= CriticalPath(tasks, rank) + 1
    ensures IsChain(Adjacency(tasks), f.chain) && (f.chain == [] <==> tasks == [])
    ensures f.blocked == BlockedCount(tasks) && f.blocked <= |OpenTasks(tasks)|
  {
    ChainWithinCriticalPath(tasks, rank);
    var m := MostDependents(tasks);
    Findings(m, if m.Some? then Occ(DepIds(tasks), m.value) else 0, LongestChain(tasks, rank), BlockedCount(tasks))
  }

  function Evidence(f: Findings, blockedRatio: real): (ev: seq<string>)
    ensures |ev| == 3
  {
    [ match f.mostDependents
      case Some(k) => "Task with most dependents: " + k + " (" + NatToString(f.dependents) + " dependents)"
      case None => "Task with most dependents: None (0 dependents)",
      if f.chain != [] then "Longest dependency chain: " + Join(f.chain, " -> ")
      else "Longest dependency chain: None",
      "Blocked tasks: " + NatToString(f.blocked) + " (" + PercentText(blockedRatio) + " active blocked ratio)" ]
  }

  /** On the extractor's own signals, the ratio in the third line is the blocked count over the open tasks. */
  lemma BlockedRatioMatchesCount(data: ProjectData, rank: map<string, nat>)
    requires Ranked(Adjacency(data.tasks), rank)
    ensures ValueOf(ExtractSignals(data, rank).signals, BLOCKED_TASK_RATIO) ==
            Ratio(BlockedCount(data.tasks), |OpenTasks(data.tasks)|)
  {
    BlockedEntry(RawSignals(data, rank));
  }

  lemma BlockedEntry(v: Raw)
    ensures ToSignals(v)[BLOCKED_TASK_RATIO].value == v.blocked
  {
  }

  /** The agent's result, given the model's reply and the decoder. */
  function AnalyzeSpec(signals: Signals, data: ProjectData, ghost rank: map<string, nat>, call: LlmCall, decode: Decoder)
    : (r: Result<AgentResult, string>)
    requires Ranked(Adjacency(data.tasks), rank)
    ensures r.Failure? <==> call.Raised?
    ensures r.Success? ==>
              && r.value.agent == AGENT
              && r.value.riskContribution == AgentScores(signals)["dependency"]
              && r.value.confidence == Confidence(signals)
              && |r.value.evidence| == 3
              && r.value.signalRefs == SIGNAL_REFS
    ensures call == Returned(LLM_ERROR) ==>
              r.Success? && r.value.topRisks == [FALLBACK_RISK] && r.value.reasoning == FALLBACK_REASONING
    ensures call.Returned? && decode(Unwrap(call.text)).None? ==>
              r.Success? && r.value.topRisks == [FALLBACK_RISK] && r.value.reasoning == FALLBACK_REASONING
    ensures call.Raised? ==> r.error == call.message
    ensures call.Returned? ==>
              && r.Success?
              && r.value.topRisks == ParseReply(call.text, decode).topRisks
              && r.value.reasoning == ParseReply(call.text, decode).reasoning
    ensures r.Success? ==> r.value.evidence == Evidence(FindingsOf(data.tasks, rank), ValueOf(signals, BLOCKED_TASK_RATIO))
  {
    var ev := Evidence(FindingsOf(data.tasks, rank), ValueOf(signals, BLOCKED_TASK_RATIO));
    match AgentReply(call, decode)
    case Failure(e) => Failure(e)
    case Success(reply) =>
      Success(AgentResult(AGENT, RiskContribution(signals), Confidence(signals), reply.topRisks, ev,
                          reply.reasoning, SIGNAL_REFS))
  }

  /** `analyze`: the counter and memo loops, then the result. */
  method Analyze(signals: Signals, data: ProjectData, ghost rank: map<string, nat>, call: LlmCall, decode: Decoder)
    returns (r: Result<AgentResult, string>)
    requires Ranked(Adjacency(data.tasks), rank)
    ensures r == AnalyzeSpec(signals, data, rank, call, decode)
  {
    var most, count := FindMostDependents(data.tasks);
    var chain := FindLongestChain(data.tasks, rank);
    var f := Findings(most, count, chain, BlockedCount(data.tasks));
    assert f == FindingsOf(data.tasks, rank);
    var ev := Evidence(f, ValueOf(signals, BLOCKED_TASK_RATIO));
    match AgentReply(call, decode)
    case Failure(e) =>
      r := Failure(e);
    case Success(reply) =>
      r := Success(AgentResult(AGENT, RiskContribution(signals), Confidence(signals), reply.topRisks, ev,
                               reply.reasoning, SIGNAL_REFS));
  }
}
