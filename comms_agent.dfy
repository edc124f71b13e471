/**
 * agents/comms_agent.py: the communications agent's deterministic part. The
 * evidence names the silent developers (assignees of open tasks with no
 * message in the last 72 hours), counts the threads with a single message
 * and counts the recent messages carrying a trigger word.
 */
module CommsAgent {
  import opened Wrappers
  import opened Text
  import opened Records
  import opened Tally
  import opened SignalExtractor
  import opened RiskFormula
  import opened LlmReply

  const AGENT := "comms_agent"
  const SIGNAL_REFS := [SILENT_DEV_RATIO, UNANSWERED_THREAD_RATIO, ESCALATION_KEYWORD_COUNT]

  /** The mean of the three comms scores: the risk formula's "comms" score. */
  function RiskContribution(signals: Signals): (r: real)
    ensures r == AgentScores(signals)["comms"]
    ensures ScoresInRange(signals) ==> 0.0 <= r <= 1.0
  {
    assert ScoresInRange(signals) ==> 0.0 <= AgentScores(signals)["comms"] <= 1.0 by {
      if ScoresInRange(signals) { AgentScoresInRange(signals); }
    }
    MeanScore(signals, SILENT_DEV_RATIO, UNANSWERED_THREAD_RATIO, ESCALATION_KEYWORD_COUNT)
  }

  /** Comms signals rest on metadata only, so the confidence is a fixed, moderate one. */
  const CONFIDENCE := 0.75

  // ---------------------------------------------------------------------
  // Silent developers

  /** `dev_map`: id to display name, a later developer with the same id overwriting. */
  function DevMap(devs: seq<Developer>): (m: map<string, string>)
    ensures forall d :: d in devs ==> d.devId in m
    ensures forall k :: k in m ==> exists d :: d in devs && d.devId == k && m[k] == DisplayName(d)
  {
    if devs == [] then map[]
    else
      var init := devs[..|devs| - 1];
      var last := devs[|devs| - 1];
      assert devs == init + [last];
      DevMap(init)[last.devId := DisplayName(last)]
  }

  /** `dev_map.get(d_id, d_id)`. */
  function NameFor(m: map<string, string>, id: string): string {
    if id in m then m[id] else id
  }

  /** The ids of the silent developers: active assignees with no recent message. */
  function SilentIds(data: ProjectData): (s: set<string>)
    ensures |s| == SilentDevCount(data.tasks, data.messages, data.now)
  {
    ActiveDevIds(data.tasks) - RecentSenders(data.messages, data.now)
  }

  /** `ids` lists the set `s`, each element once, in some order. */
  ghost predicate Enumerates(ids: seq<string>, s: set<string>) {
    && |ids| == |s|
    && (forall x :: x in ids <==> x in s)
    && (forall i, j :: 0 <= i < j < |ids| ==> ids[i] != ids[j])
  }

  /**
   * The comprehension over `active_dev_ids` keeping those without a recent
   * message. A Python set iterates in an order the program does not fix, so
   * the loop takes the ids in any order.
   */
  method SilentNames(active: set<string>, recent: set<string>, devMap: map<string, string>)
    returns (ids: seq<string>, names: seq<string>)
    ensures Enumerates(ids, active - recent)
    ensures |names| == |ids| && forall i :: 0 <= i < |ids| ==> names[i] == NameFor(devMap, ids[i])
  {
    ids, names := [], [];
    var remaining := active;
    while remaining != {}
      invariant remaining <= active
      invariant forall x :: x in ids <==> x in active - remaining && x !in recent
      invariant forall i, j :: 0 <= i < j < |ids| ==> ids[i] != ids[j]
      invariant |names| == |ids| && forall i :: 0 <= i < |ids| ==> names[i] == NameFor(devMap, ids[i])
      decreases |remaining|
    {
      var d :| d in remaining;
      if d !in recent {
        ids := ids + [d];
        names := names + [NameFor(devMap, d)];
      }
      remaining := remaining - {d};
    }
    assert (set x | x in ids) == active - recent;
    DistinctCardinality(ids);
  }

  /** A list without repeats has as many elements as its set. */
  lemma {:induction false} DistinctCardinality(ids: seq<string>)
    requires forall i, j :: 0 <= i < j < |ids| ==> ids[i] != ids[j]
    ensures |set x | x in ids| == |ids|
  {
    if ids != [] {
      var init := ids[..|ids| - 1];
      var last := ids[|ids| - 1];
      DistinctCardinality(init);
      assert ids == init + [last];
      assert last !in init;
      assert (set x | x in ids) == (set x | x in init) + {last};
    }
  }

  // ---------------------------------------------------------------------
  // Unanswered threads

  /** The thread ids the agent counts: empty ids are skipped (`if t_id:`). */
  function CountedThreadIds(messages: seq<Message>): seq<string> {
    NonEmpty(ThreadIds(messages))
  }

  /** The `thread_msg_counts` loop, skipping messages with an empty thread id. */
  method CountThreads(messages: seq<Message>) returns (keys: seq<string>, counts: map<string, nat>)
    ensures Tallies(keys, counts, CountedThreadIds(messages))
  {
    keys, counts := [], map[];
    EmptyTallies();
    for i := 0 to |messages|
      invariant Tallies(keys, counts, NonEmpty(ThreadIds(messages[..i])))
    {
      var t := messages[i].threadId;
      assert ThreadIds(messages[..i + 1]) == ThreadIds(messages[..i]) + [t];
      assert NonEmpty(ThreadIds(messages[..i + 1])) ==
             NonEmpty(ThreadIds(messages[..i])) + (if t != "" then [t] else []);
      if t != "" {
        BumpTallies(keys, counts, NonEmpty(ThreadIds(messages[..i])), t);
        keys := if t in counts then keys else keys + [t];
        counts := Bump(counts, t);
      } else {
        assert NonEmpty(ThreadIds(messages[..i])) + [] == NonEmpty(ThreadIds(messages[..i]));
      }
    }
    assert messages[..|messages|] == messages;
  }

  /** The agent's unanswered count: threads with one message, empty thread ids left out. */
  function UnansweredCount(messages: seq<Message>): nat {
    SingleMessageThreads(CountedThreadIds(messages))
  }

  lemma {:induction false} NonEmptyUnchanged(ds: seq<string>)
    requires forall i :: 0 <= i < |ds| ==> ds[i] != ""
    ensures NonEmpty(ds) == ds
  {
    if ds != [] {
      NonEmptyUnchanged(ds[..|ds| - 1]);
      assert ds == ds[..|ds| - 1] + [ds[|ds| - 1]];
    }
  }

  /** When every message names a thread, the agent counts what the extractor's numerator counts. */
  lemma UnansweredMatchesExtractor(messages: seq<Message>)
    requires forall m :: m in messages ==> m.threadId != ""
    ensures UnansweredCount(messages) == SingleMessageThreads(ThreadIds(messages))
  {
    var ids := ThreadIds(messages);
    forall i | 0 <= i < |ids| ensures ids[i] != "" {
      assert messages[i] in messages;
    }
    NonEmptyUnchanged(ids);
  }

  // ---------------------------------------------------------------------
  // Evidence and result

  datatype Findings = Findings(silentNames: seq<string>, unanswered: nat, escalations: nat)

  /** The findings, for the order `silent` in which the silent ids were visited. */
  function FindingsOf(data: ProjectData, silent: seq<string>): (f: Findings)
    ensures |f.silentNames| == |silent|
    ensures Enumerates(silent, SilentIds(data)) ==> |f.silentNames| == SilentDevCount(data.tasks, data.messages, data.now)
    ensures f.unanswered == UnansweredCount(data.messages)
    ensures f.escalations == EscalationCount(data.messages, data.now)
  {
    var m := DevMap(data.developers);
    Findings(seq(|silent|, i requires 0 <= i < |silent| => NameFor(m, silent[i])),
             UnansweredCount(data.messages), EscalationCount(data.messages, data.now))
  }

  function Evidence(f: Findings): (ev: seq<string>)
    ensures |ev| == 3
  {
    [ if f.silentNames != [] then "Silent developers (last 72h): " + Join(f.silentNames, ", ")
      else "Silent developers (last 72h): None",
      "Unanswered threads: " + NatToString(f.unanswered),
      "Escalation keywords (last 72h): " + NatToString(f.escalations) ]
  }

  function AnalyzeSpec(signals: Signals, data: ProjectData, silent: seq<string>, call: LlmCall, decode: Decoder)
    : (r: Result<AgentResult, string>)
    ensures r.Failure? <==> call.Raised?
    ensures r.Success? ==>
              && r.value.agent == AGENT
              && r.value.riskContribution == AgentScores(signals)["comms"]
              && r.value.confidence == 0.75
              && |r.value.evidence| == 3
              && r.value.signalRefs == SIGNAL_REFS
    ensures call == Returned(LLM_ERROR) ==>
              r.Success? && r.value.topRisks == [FALLBACK_RISK] && r.value.reasoning == FALLBACK_REASONING
    ensures call.Returned? && decode(Unwrap(call.text)).None? ==>
              r.Success? && r.value.topRisks == [FALLBACK_RISK] && r.value.reasoning == FALLBACK_REASONING
    ensures call.Raised? ==> r.error == call.message
    ensures call.Returned? ==>
              && r.Success?
              && r.value.topRisks == ParseReply(call.text, decode).topRisks
              && r.value.reasoning == ParseReply(call.text, decode).reasoning
    ensures r.Success? ==> r.value.evidence == Evidence(FindingsOf(data, silent))
  {
    var ev := Evidence(FindingsOf(data, silent));
    match AgentReply(call, decode)
    case Failure(e) => Failure(e)
    case Success(reply) =>
      Success(AgentResult(AGENT, RiskContribution(signals), CONFIDENCE, reply.topRisks, ev, reply.reasoning, SIGNAL_REFS))
  }

  /** `analyze`: the sender set, the silent comprehension and the thread counter, then the result. */
  method Analyze(signals: Signals, data: ProjectData, call: LlmCall, decode: Decoder)
    returns (r: Result<AgentResult, string>, silent: seq<string>)
    ensures Enumerates(silent, SilentIds(data))
    ensures r == AnalyzeSpec(signals, data, silent, call, decode)
  {
    var devMap := DevMap(data.developers);
    var recent := CollectRecentSenders(data.messages, data.now);
    var names;
    silent, names := SilentNames(ActiveDevIds(data.tasks), recent, devMap);
    var keys, counts := CountThreads(data.messages);
    var unanswered := Count(keys, k => Get(counts, k) == 1);
    CountAgree(keys, k => Get(counts, k) == 1, k => Occ(CountedThreadIds(data.messages), k) == 1);
    var f := Findings(names, unanswered, EscalationCount(data.messages, data.now));
    assert f == FindingsOf(data, silent);
    var ev := Evidence(f);
    match AgentReply(call, decode)
    case Failure(e) =>
      r := Failure(e);
    case Success(reply) =>
      r := Success(AgentResult(AGENT, RiskContribution(signals), CONFIDENCE, reply.topRisks, ev, reply.reasoning, SIGNAL_REFS));
  }
}
