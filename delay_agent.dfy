/**
 * agents/delay_agent.py: the delay agent's deterministic part. The evidence
 * counts the overdue open tasks and names the one due first, counts the
 * stale open tasks, and reports the mean and the largest age of the open
 * pull requests.
 */
module DelayAgent {
  import opened Wrappers
  import opened Text
  import opened Records
  import opened SignalExtractor
  import opened RiskFormula
  import opened LlmReply

  const AGENT := "delay_agent"
  const SIGNAL_REFS := [OVERDUE_TASK_RATIO, STALE_TASK_RATIO, AVG_PR_AGE_DAYS]

  /** The mean of the three delay scores: the risk formula's "delay" score. */
  function RiskContribution(signals: Signals): (r: real)
    ensures r == AgentScores(signals)["delay"]
    ensures ScoresInRange(signals) ==> 0.0 <= r <= 1.0
  {
    assert ScoresInRange(signals) ==> 0.0 <= AgentScores(signals)["delay"] <= 1.0 by {
      if ScoresInRange(signals) { AgentScoresInRange(signals); }
    }
    MeanScore(signals, OVERDUE_TASK_RATIO, STALE_TASK_RATIO, AVG_PR_AGE_DAYS)
  }

  /** Delay signals rest on timestamps only, so the confidence is fixed. */
  const CONFIDENCE := 1.0

  // ---------------------------------------------------------------------
  // Overdue tasks

  predicate IsOverdue(t: Task, now: int) {
    IsOpen(t) && t.dueDate < now
  }

  /** `overdue_tasks`: the open tasks past their due date, in task order. */
  function Overdue(tasks: seq<Task>, now: int): (r: seq<Task>)
    ensures |r| == OverdueCount(tasks, now)
    ensures forall t :: t in r <==> t in tasks && IsOverdue(t, now)
  {
    if tasks == [] then []
    else
      var init := tasks[..|tasks| - 1];
      var t := tasks[|tasks| - 1];
      assert tasks == init + [t];
      OverdueSnoc(init, t, now);
      Overdue(init, now) + (if IsOverdue(t, now) then [t] else [])
  }

  lemma OverdueSnoc(init: seq<Task>, t: Task, now: int)
    ensures OverdueCount(init + [t], now) == OverdueCount(init, now) + (if IsOverdue(t, now) then 1 else 0)
  {
    OpenTasksAppend(init, t);
    if IsOpen(t) {
      CountSnoc(OpenTasks(init), t, (t: Task) => t.dueDate < now);
    } else {
      assert OpenTasks(init + [t]) == OpenTasks(init);
    }
  }

  /** The loop over the open tasks appending the overdue ones. */
  method CollectOverdue(tasks: seq<Task>, now: int) returns (r: seq<Task>)
    ensures r == Overdue(tasks, now)
  {
    r := [];
    for i := 0 to |tasks|
      invariant r == Overdue(tasks[..i], now)
    {
      assert tasks[..i + 1][..i] == tasks[..i];
      if IsOpen(tasks[i]) && tasks[i].dueDate < now {
        r := r + [tasks[i]];
      }
    }
    assert tasks[..|tasks|] == tasks;
  }

  /** `min(ts, key=due_date)`: a task due no later than any other, the first such one. */
  function Oldest(ts: seq<Task>): (o: Task)
    requires ts != []
    ensures o in ts
    ensures forall t :: t in ts ==> o.dueDate <= t.dueDate
    ensures exists i :: 0 <= i < |ts| && ts[i] == o && forall j :: 0 <= j < i ==> ts[j].dueDate > o.dueDate
  {
    if |ts| == 1 then ts[0]
    else
      var init := ts[..|ts| - 1];
      var last := ts[|ts| - 1];
      assert ts == init + [last];
      var o := Oldest(init);
      assert forall j :: 0 <= j < |init| ==> ts[j] == init[j];
      if last.dueDate < o.dueDate then last else o
  }

  // ---------------------------------------------------------------------
  // Pull-request ages

  /** `max(pr_ages)`. */
  function MaxAge(prs: seq<PullRequest>, now: int): (m: real)
    requires prs != []
    ensures forall p :: p in prs ==> AgeDays(p, now) <= m
    ensures exists p :: p in prs && AgeDays(p, now) == m
  {
    if |prs| == 1 then AgeDays(prs[0], now)
    else
      var m := MaxAge(prs[1..], now);
      assert forall p :: p in prs ==> p == prs[0] || p in prs[1..];
      if AgeDays(prs[0], now) > m then AgeDays(prs[0], now) else m
  }

  /** n copies of m added up. */
  function Times(n: nat, m: real): real {
    if n == 0 then 0.0 else m + Times(n - 1, m)
  }

  lemma {:induction false} TimesIsProduct(n: nat, m: real)
    ensures Times(n, m) == n as real * m
  {
    if n > 0 {
      TimesIsProduct(n - 1, m);
      assert n as real * m == m + (n - 1) as real * m;
    }
  }

  /** No age exceeds the largest, so the sum is at most the count times the largest. */
  lemma {:induction false} SumWithinMax(prs: seq<PullRequest>, now: int, m: real)
    requires forall p :: p in prs ==> AgeDays(p, now) <= m
    ensures SumAges(prs, now) <= |prs| as real * m
  {
    SumWithinTimes(prs, now, m);
    TimesIsProduct(|prs|, m);
  }

  lemma {:induction false} SumWithinTimes(prs: seq<PullRequest>, now: int, m: real)
    requires forall p :: p in prs ==> AgeDays(p, now) <= m
    ensures SumAges(prs, now) <= Times(|prs|, m)
  {
    if prs != [] {
      assert AgeDays(prs[0], now) <= m by { assert prs[0] in prs; }
      assert forall p :: p in prs[1..] ==> AgeDays(p, now) <= m by {
        assert forall p :: p in prs[1..] ==> p in prs;
      }
      SumWithinTimes(prs[1..], now, m);
    }
  }

  /** The mean age the evidence reports never exceeds the oldest one. */
  lemma AverageWithinOldest(prs: seq<PullRequest>, now: int)
    requires OpenPrs(prs) != []
    ensures AvgPrAge(prs, now) <= MaxAge(OpenPrs(prs), now)
  {
    var open := OpenPrs(prs);
    var m := MaxAge(open, now);
    var total := SumAges(open, now);
    var n := |open| as real;
    SumWithinMax(open, now, m);
    assert AvgPrAge(prs, now) == total / n;
    DivWithin(total, n, m);
  }

  lemma DivWithin(a: real, n: real, m: real)
    requires n > 0.0 && a <= n * m
    ensures a / n <= m
  {
    assert a / n * n == a;
  }

  // ---------------------------------------------------------------------
  // Evidence and result

  /** The mean and the largest open-PR age, when there are open PRs. */
  datatype Ages = Ages(average: real, oldest: real)

  datatype Findings = Findings(overdue: seq<Task>, stale: nat, ages: Option<Ages>)

  function FindingsOf(data: ProjectData): (f: Findings)
    ensures |f.overdue| == OverdueCount(data.tasks, data.now)
    ensures f.stale == StaleCount(data.tasks, data.now)
    ensures f.ages.None? <==> OpenPrs(data.pullRequests) == []
    ensures f.ages.Some? ==> f.ages.value.average == AvgPrAge(data.pullRequests, data.now) &&
                             f.ages.value.average <= f.ages.value.oldest
  {
    var open := OpenPrs(data.pullRequests);
    var ages := if open == [] then None else Some(Ages(AvgPrAge(data.pullRequests, data.now), MaxAge(open, data.now)));
    assert open != [] ==> AvgPrAge(data.pullRequests, data.now) <= MaxAge(open, data.now) by {
      if open != [] { AverageWithinOldest(data.pullRequests, data.now); }
    }
    Findings(Overdue(data.tasks, data.now), StaleCount(data.tasks, data.now), ages)
  }

  function Evidence(f: Findings): (ev: seq<string>)
    ensures |ev| == 3
  {
    [ if f.overdue != [] then
        var o := Oldest(f.overdue);
        "Overdue tasks: " + NatToString(|f.overdue|) + " (Oldest: " + o.taskId + " due " + IntToString(o.dueDate) + ")"
      else "Overdue tasks: 0",
      "Stale tasks (>5 days no update): " + NatToString(f.stale),
      match f.ages
      case Some(a) => "Average open PR age: " + Fixed1(a.average) + " days (Oldest: " + Fixed1(a.oldest) + " days)"
      case None => "Average open PR age: 0 days (No open PRs)" ]
  }

  function AnalyzeSpec(signals: Signals, data: ProjectData, call: LlmCall, decode: Decoder): (r: Result<AgentResult, string>)
    ensures r.Failure? <==> call.Raised?
    ensures r.Success? ==>
              && r.value.agent == AGENT
              && r.value.riskContribution == AgentScores(signals)["delay"]
              && r.value.confidence == 1.0
              && |r.value.evidence| == 3
              && r.value.signalRefs == SIGNAL_REFS
    ensures call == Returned(LLM_ERROR) ==>
              r.Success? && r.value.topRisks == [FALLBACK_RISK] && r.value.reasoning == FALLBACK_REASONING
    ensures call.Returned? && decode(Unwrap(call.text)).None? ==>
              r.Success? && r.value.topRisks == [FALLBACK_RISK] && r.value.reasoning == FALLBACK_REASONING
    ensures call.Raised? ==> r.error == call.message
    ensures call.Returned? ==>
              && r.Success?
              && r.value.topRisks == ParseReply(call.text, decode).topRisks
              && r.value.reasoning == ParseReply(call.text, decode).reasoning
    ensures r.Success? ==> r.value.evidence == Evidence(FindingsOf(data))
  {
    var ev := Evidence(FindingsOf(data));
    match AgentReply(call, decode)
    case Failure(e) => Failure(e)
    case Success(reply) =>
      Success(AgentResult(AGENT, RiskContribution(signals), CONFIDENCE, reply.topRisks, ev, reply.reasoning, SIGNAL_REFS))
  }

  /** `analyze`: the overdue loop, the PR ages, then the result. */
  method Analyze(signals: Signals, data: ProjectData, call: LlmCall, decode: Decoder)
    returns (r: Result<AgentResult, string>)
    ensures r == AnalyzeSpec(signals, data, call, decode)
  {
    var overdue := CollectOverdue(data.tasks, data.now);
    var open := OpenPrs(data.pullRequests);
    var ages: Option<Ages> := None;
    if open != [] {
      ages := Some(Ages(SumAges(open, data.now) / (|open| as real), MaxAge(open, data.now)));
    }
    var f := Findings(overdue, StaleCount(data.tasks, data.now), ages);
    assert f == FindingsOf(data);
    var ev := Evidence(f);
    match AgentReply(call, decode)
    case Failure(e) =>
      r := Failure(e);
    case Success(reply) =>
      r := Success(AgentResult(AGENT, RiskContribution(signals), CONFIDENCE, reply.topRisks, ev, reply.reasoning, SIGNAL_REFS));
  }
}
