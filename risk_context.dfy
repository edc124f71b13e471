/**
 * react-app/src/context/RiskContext.tsx: the live-analysis session. A run
 * empties the feed and opens a fresh socket; each callback the socket
 * dispatches updates a few fields; an error falls back to one REST fetch.
 * The pure `Step` says what each callback does to the fields, and the
 * `Session` class, which holds them, is proved to follow it.
 */
module RiskContext {
  import opened Wrappers
  import opened Text
  import opened SupervisorAgent
  import opened MeridianApi
  import Records
  import SignalExtractor
  import LlmReply
  import Websocket
  import Routes

  /** One entry of the live feed. */
  datatype FeedItem = FeedItem(color: string, name: string, time: string, text: string)

  /** The clock as a handler reads it: `toISOString()` and `toTimeString()` of the current date. */
  datatype Clock = Clock(iso: string, time: string)

  /** The values the provider shares with the pages. */
  datatype ContextValue = ContextValue(analysis: Option<Analysis>, loading: bool, error: Option<string>, liveFeed: seq<FeedItem>,
                       lastUpdated: string, backendOnline: bool)

  /** The provider's initial state. */
  const INITIAL := ContextValue(None, false, None, [], "Loading…", false)
  const RUNNING := "Running Analysis…"
  const ERROR_TEXT := "Backend unavailable — start the FastAPI server on port 8000."
  const FEED_SIZE := 10

  // ---------------------------------------------------------------------
  // Feed entries

  /** `getRiskHex`: cut-offs 0.8, 0.6 and 0.4 on the 0-1 scale. */
  function FeedHex(score: real): (hex: string)
    ensures hex == "#ef4444" <==> score >= 0.8
    ensures hex == "#f97316" <==> 0.6 <= score < 0.8
    ensures hex == "#eab308" <==> 0.4 <= score < 0.6
    ensures hex == "#22c55e" <==> score < 0.4
  {
    if score >= 0.8 then "#ef4444" else if score >= 0.6 then "#f97316" else if score >= 0.4 then "#eab308" else "#22c55e"
  }

  /** The feed's bands are not the badge's: 0.7 is orange here and amber on a badge. */
  lemma FeedBandsDifferFromBadge()
    ensures FeedHex(0.7) == "#f97316" && MeridianApi.RiskHex(70.0) == "#f59e0b"
  {
  }

  /** `agent.replace('_agent', '').toUpperCase()`. */
  function FeedName(agent: string): string {
    Upper(ReplaceFirst(agent, "_agent", ""))
  }

  /** The name an agent's id shows under: the id up to `_agent`, in capitals. */
  lemma FeedNameOfId(base: string)
    requires '_' !in base
    ensures FeedName(base + "_agent") == Upper(base)
  {
    FirstCharAbsentBefore(base + "_agent" + "", "_agent", |base|);
    ReplaceFirstAt(base, "_agent", "", "");
    assert base + "_agent" + "" == base + "_agent";
    assert base + "" + "" == base;
  }

  /** The five agents show as DEPENDENCY, WORKLOAD, SCOPE, DELAY and COMMS. */
  lemma FeedNamesOfAgents()
    ensures forall j :: 0 <= j < |Records.AGENT_KEYS| ==> FeedName(AGENT_NAMES[j]) == Upper(Records.AGENT_KEYS[j])
    ensures FeedName(AGENT_NAMES[0]) == "DEPENDENCY" && FeedName(AGENT_NAMES[4]) == "COMMS"
  {
    forall j | 0 <= j < |Records.AGENT_KEYS|
      ensures FeedName(AGENT_NAMES[j]) == Upper(Records.AGENT_KEYS[j])
    {
      var key := Records.AGENT_KEYS[j];
      assert '_' !in key;
      assert AGENT_NAMES[j] == key + "_agent";
      FeedNameOfId(key);
    }
    assert Upper("dependency") == "DEPENDENCY";
    assert Upper("comms") == "COMMS";
  }

  /** The entry an agent-complete payload adds. */
  function FeedItemOf(r: Records.AgentResult, clock: Clock): FeedItem {
    FeedItem(FeedHex(r.riskContribution), FeedName(r.agent), Slice(clock.time, 8), r.reasoning)
  }

  /** `[item, ...prev.slice(0, 9)]`. */
  function Push(feed: seq<FeedItem>, item: FeedItem): (r: seq<FeedItem>)
    ensures |r| == if |feed| < FEED_SIZE then |feed| + 1 else FEED_SIZE
    ensures r[0] == item && r[1..] == feed[..|r| - 1]
  {
    [item] + Slice(feed, FEED_SIZE - 1)
  }

  /** The feed after pushing `items` in order. */
  function Pushed(feed: seq<FeedItem>, items: seq<FeedItem>): seq<FeedItem> {
    if items == [] then feed else Push(Pushed(feed, items[..|items| - 1]), Last(items))
  }

  /** A short feed pushed onto holds the newest ten entries, most recent first. */
  lemma {:induction false} PushedNewestFirst(feed: seq<FeedItem>, items: seq<FeedItem>)
    requires |feed| <= FEED_SIZE
    ensures Pushed(feed, items) == Slice(Reversed(items) + feed, FEED_SIZE)
  {
    if items == [] {
      assert Reversed(items) + feed == feed;
    } else {
      var init := items[..|items| - 1];
      var x := Last(items);
      var s := Reversed(init) + feed;
      calc {
        Pushed(feed, items);
        Push(Pushed(feed, init), x);
        { PushedNewestFirst(feed, init); }
        Push(Slice(s, FEED_SIZE), x);
        { PushOfSlice(s, x); }
        Slice([x] + s, FEED_SIZE);
        { assert [x] + s == Reversed(items) + feed; }
        Slice(Reversed(items) + feed, FEED_SIZE);
      }
    }
  }

  lemma PushOfSlice(s: seq<FeedItem>, x: FeedItem)
    ensures Push(Slice(s, FEED_SIZE), x) == Slice([x] + s, FEED_SIZE)
  {
    var l := Push(Slice(s, FEED_SIZE), x);
    var r := Slice([x] + s, FEED_SIZE);
    assert |l| == |r|;
    forall i | 0 <= i < |l|
      ensures l[i] == r[i]
    {
      if i > 0 {
        assert l[i] == l[1..][i - 1];
      }
    }
  }

  // ---------------------------------------------------------------------
  // The time stamp

  /** `s.replace('T', ' ').slice(0, 19) + ' UTC'`. */
  function Stamp(s: string): string {
    Slice(ReplaceFirst(s, "T", " "), 19) + " UTC"
  }

  /** The analysis time stamp when it is not empty, the current time otherwise. */
  function LastUpdatedText(timestamp: string, clock: Clock): string {
    if timestamp != "" then Stamp(timestamp) else Stamp(clock.iso)
  }

  /** An ISO-8601 time stamp shows as its date, a space, its time to the second, and ` UTC`. */
  lemma StampOfIso(date: string, time: string, rest: string)
    requires |date| == 10 && 'T' !in date && |time| == 8
    ensures Stamp(date + "T" + time + rest) == date + " " + time + " UTC"
  {
    FirstCharAbsentBefore(date + "T" + (time + rest), "T", |date|);
    ReplaceFirstAt(date, "T", " ", time + rest);
    assert date + "T" + (time + rest) == date + "T" + time + rest;
    assert (date + " " + (time + rest))[..19] == date + " " + time;
  }

  // ---------------------------------------------------------------------
  // What each step does to the shared values

  /** `connect` before any event: loading, an empty feed and the running text; the last analysis stays shown. */
  function Started(v: ContextValue): (w: ContextValue)
    ensures w.loading && w.liveFeed == [] && w.lastUpdated == RUNNING
    ensures w.analysis == v.analysis && w.error == v.error && w.backendOnline == v.backendOnline
  {
    v.(loading := true, liveFeed := [], lastUpdated := RUNNING)
  }

  /** `applyAnalysis`. */
  function Applied(v: ContextValue, a: Analysis, clock: Clock): ContextValue {
    v.(analysis := Some(a), backendOnline := true, error := None,
       lastUpdated := LastUpdatedText(a.timestamp, clock), loading := false)
  }

  /** The fetch's `catch`. */
  function FetchFailed(v: ContextValue): ContextValue {
    v.(loading := false, backendOnline := false, error := Some(ERROR_TEXT))
  }

  /** One callback of the run's socket; the provider leaves `onSignalsReady` and `onAgentStart` unset. */
  function Step(v: ContextValue, cb: Callback, clock: Clock): ContextValue {
    match cb
    case OnConnected => v.(backendOnline := true)
    case OnSignalsReady(_) => v
    case OnAgentStart(_) => v
    case OnAgentComplete(_, data) =>
      if data.AgentData? then v.(liveFeed := Push(v.liveFeed, FeedItemOf(data.result, clock))) else v
    case OnRiskScoreReady(data) => if data.AnalysisData? then Applied(v, data.analysis, clock) else v
    case OnComplete => v.(loading := false)
    case OnError(_) => v
  }

  /** The callbacks that start the REST fallback. */
  predicate Fetches(cb: Callback) {
    cb.OnError?
  }

  /** The outcome of the fallback fetch. */
  function Fallback(v: ContextValue, fetched: Result<Analysis, string>, clock: Clock): ContextValue {
    match fetched
    case Success(a) => Applied(v, a, clock)
    case Failure(_) => FetchFailed(v)
  }

  /** A score-ready payload replaces the analysis whole and ends loading; a good fetch is applied the same way. */
  lemma ScoreReadyReplacesAnalysis(v: ContextValue, a: Analysis, clock: Clock)
    ensures var w := Step(v, OnRiskScoreReady(AnalysisData(a)), clock);
            && w.analysis == Some(a) && w.backendOnline && w.error.None? && !w.loading
            && w.lastUpdated == LastUpdatedText(a.timestamp, clock) && w.liveFeed == v.liveFeed
    ensures Fallback(v, Success(a), clock) == Step(v, OnRiskScoreReady(AnalysisData(a)), clock)
  {
  }

  /** A failed fetch ends loading and reports the backend offline, and the last analysis stays. */
  lemma FailedFetchKeepsAnalysis(v: ContextValue, message: string, clock: Clock)
    ensures var w := Fallback(v, Failure(message), clock);
            && w.analysis == v.analysis && !w.loading && !w.backendOnline && w.error == Some(ERROR_TEXT)
            && w.liveFeed == v.liveFeed && w.lastUpdated == v.lastUpdated
  {
  }

  /** complete only ends loading; signals-ready, agent-start and error change no value. */
  lemma QuietCallbacks(v: ContextValue, cb: Callback, clock: Clock)
    ensures cb.OnComplete? ==> Step(v, cb, clock) == v.(loading := false)
    ensures cb.OnSignalsReady? || cb.OnAgentStart? || cb.OnError? ==> Step(v, cb, clock) == v
    ensures !cb.OnAgentComplete? ==> Step(v, cb, clock).liveFeed == v.liveFeed
  {
  }

  /** An agent-complete payload adds exactly one entry in front, and the feed stays within ten. */
  lemma AgentCompletePushes(v: ContextValue, agent: Option<string>, r: Records.AgentResult, clock: Clock)
    requires |v.liveFeed| <= FEED_SIZE
    ensures var w := Step(v, OnAgentComplete(agent, AgentData(r)), clock);
            && |w.liveFeed| <= FEED_SIZE && w.liveFeed[0] == FeedItemOf(r, clock)
            && w.liveFeed[1..] == v.liveFeed[..|w.liveFeed| - 1]
            && w.liveFeed[0].name == FeedName(r.agent) && w.liveFeed[0].color == FeedHex(r.riskContribution)
  {
  }

  // ---------------------------------------------------------------------
  // A run of callbacks

  /** A callback with the clock reading its handler sees. */
  datatype Timed = Timed(cb: Callback, clock: Clock)

  function Run(v: ContextValue, ts: seq<Timed>): ContextValue {
    if ts == [] then v else Step(Run(v, ts[..|ts| - 1]), Last(ts).cb, Last(ts).clock)
  }

  /** The feed entry one callback adds, if any. */
  function ItemOf(t: Timed): seq<FeedItem> {
    if t.cb.OnAgentComplete? && t.cb.data.AgentData? then [FeedItemOf(t.cb.data.result, t.clock)] else []
  }

  /** The feed entries a run of callbacks adds, in arrival order. */
  function Items(ts: seq<Timed>): seq<FeedItem> {
    if ts == [] then [] else Items(ts[..|ts| - 1]) + ItemOf(Last(ts))
  }

  lemma RunSnoc(v: ContextValue, ts: seq<Timed>, t: Timed)
    ensures Run(v, ts + [t]) == Step(Run(v, ts), t.cb, t.clock)
    ensures Items(ts + [t]) == Items(ts) + ItemOf(t)
  {
    assert (ts + [t])[..|ts|] == ts;
  }

  /** A callback adds its entry, if it has one, in front of the feed. */
  lemma StepFeed(w: ContextValue, t: Timed)
    ensures Step(w, t.cb, t.clock).liveFeed == if ItemOf(t) == [] then w.liveFeed else Push(w.liveFeed, ItemOf(t)[0])
  {
  }

  lemma PushedSnoc(feed: seq<FeedItem>, items: seq<FeedItem>, x: FeedItem)
    ensures Pushed(feed, items + [x]) == Push(Pushed(feed, items), x)
  {
    assert (items + [x])[..|items|] == items;
  }

  lemma RunPair(v: ContextValue, ts: seq<Timed>, a: Timed, b: Timed)
    ensures Run(v, ts + [a, b]) == Step(Step(Run(v, ts), a.cb, a.clock), b.cb, b.clock)
    ensures Items(ts + [a, b]) == Items(ts) + ItemOf(a) + ItemOf(b)
  {
    assert ts + [a, b] == (ts + [a]) + [b];
    RunSnoc(v, ts + [a], b);
    RunSnoc(v, ts, a);
  }

  /** The feed after a run is the start's feed with the run's entries pushed on, newest first. */
  lemma {:induction false} RunFeed(v: ContextValue, ts: seq<Timed>)
    ensures Run(v, ts).liveFeed == Pushed(v.liveFeed, Items(ts))
  {
    if ts != [] {
      var init := ts[..|ts| - 1];
      var t := Last(ts);
      var w := Run(v, init);
      assert Run(v, ts) == Step(w, t.cb, t.clock);
      assert Items(ts) == Items(init) + ItemOf(t);
      RunFeed(v, init);
      StepFeed(w, t);
      if ItemOf(t) == [] {
        assert Items(ts) == Items(init);
      } else {
        assert Items(ts) == Items(init) + [ItemOf(t)[0]];
        PushedSnoc(v.liveFeed, Items(init), ItemOf(t)[0]);
      }
    }
  }

  /** After a run is started, the feed holds the last min(n, 10) of the n entries, most recent first. */
  lemma StartedRunFeed(v: ContextValue, ts: seq<Timed>)
    ensures Run(Started(v), ts).liveFeed == Slice(Reversed(Items(ts)), FEED_SIZE)
  {
    RunFeed(Started(v), ts);
    PushedNewestFirst([], Items(ts));
    assert Reversed(Items(ts)) + [] == Reversed(Items(ts));
  }

  /** Running two stretches of callbacks one after the other is running them together. */
  lemma {:induction false} RunAppend(v: ContextValue, a: seq<Timed>, b: seq<Timed>)
    ensures Run(v, a + b) == Run(Run(v, a), b)
    ensures Items(a + b) == Items(a) + Items(b)
    decreases |b|
  {
    if b == [] {
      assert a + b == a;
    } else {
      var init := b[..|b| - 1];
      var t := Last(b);
      calc {
        Run(v, a + b);
        { assert a + b == (a + init) + [t]; }
        Run(v, (a + init) + [t]);
        { RunSnoc(v, a + init, t); }
        Step(Run(v, a + init), t.cb, t.clock);
        { RunAppend(v, a, init); }
        Step(Run(Run(v, a), init), t.cb, t.clock);
        { RunSnoc(Run(v, a), init, t); assert init + [t] == b; }
        Run(Run(v, a), b);
      }
      calc {
        Items(a + b);
        { assert a + b == (a + init) + [t]; }
        Items((a + init) + [t]);
        { RunSnoc(v, a + init, t); }
        Items(a + init) + ItemOf(t);
        { RunAppend(v, a, init); }
        Items(a) + Items(init) + ItemOf(t);
        { RunSnoc(v, init, t); assert init + [t] == b; }
        Items(a) + Items(b);
      }
    }
  }

  // ---------------------------------------------------------------------
  // A run against the server's stream

  /** The callbacks the server's events invoke, each at its clock reading. */
  function Callbacks(events: seq<Websocket.Event>, clocks: seq<Clock>): (ts: seq<Timed>)
    requires |clocks| == |events|
    ensures |ts| == |events|
  {
    seq(|events|, i requires 0 <= i < |events| => Timed(CallbackOf(events[i]), clocks[i]))
  }

  lemma CallbacksAt(events: seq<Websocket.Event>, clocks: seq<Clock>, i: nat)
    requires |clocks| == |events| && i < |events|
    ensures Callbacks(events, clocks)[i] == Timed(CallbackOf(events[i]), clocks[i])
  {
  }

  lemma CallbacksAppend(e1: seq<Websocket.Event>, e2: seq<Websocket.Event>, c1: seq<Clock>, c2: seq<Clock>)
    requires |c1| == |e1| && |c2| == |e2|
    ensures Callbacks(e1 + e2, c1 + c2) == Callbacks(e1, c1) + Callbacks(e2, c2)
  {
    var l := Callbacks(e1 + e2, c1 + c2);
    var r := Callbacks(e1, c1) + Callbacks(e2, c2);
    forall i | 0 <= i < |l|
      ensures l[i] == r[i]
    {
      CallbacksAt(e1 + e2, c1 + c2, i);
      if i < |e1| {
        CallbacksAt(e1, c1, i);
      } else {
        CallbacksAt(e2, c2, i - |e1|);
        assert (e1 + e2)[i] == e2[i - |e1|];
      }
    }
  }

  /** The callbacks of the agent events, built the way the events are: one start and one complete per result. */
  function AgentCallbacks(rs: seq<Records.AgentResult>, clocks: seq<Clock>): (ts: seq<Timed>)
    requires |rs| <= |AGENT_NAMES| && |clocks| == 2 * |rs|
    ensures |ts| == |clocks|
  {
    if rs == [] then []
    else
      var n := |rs| - 1;
      AgentCallbacks(rs[..n], clocks[..2 * n])
      + [Timed(OnAgentStart(Some(AGENT_NAMES[n])), clocks[2 * n]),
         Timed(OnAgentComplete(Some(AGENT_NAMES[n]), AgentData(rs[n])), clocks[2 * n + 1])]
  }

  /** These are the callbacks the server's agent events invoke. */
  lemma AgentCallbacksOfEvents(rs: seq<Records.AgentResult>, clocks: seq<Clock>)
    requires |rs| <= |AGENT_NAMES| && |clocks| == 2 * |rs|
    ensures Callbacks(Websocket.AgentEvents(rs), clocks) == AgentCallbacks(rs, clocks)
  {
    var l := Callbacks(Websocket.AgentEvents(rs), clocks);
    var r := AgentCallbacks(rs, clocks);
    forall i | 0 <= i < |l|
      ensures l[i] == r[i]
    {
      var j := i / 2;
      assert i == 2 * j || i == 2 * j + 1;
      CallbacksAt(Websocket.AgentEvents(rs), clocks, i);
      Websocket.AgentEventsAt(rs, j);
      AgentCallbacksAt(rs, clocks, j);
    }
  }

  lemma {:induction false} AgentCallbacksAt(rs: seq<Records.AgentResult>, clocks: seq<Clock>, j: nat)
    requires |rs| <= |AGENT_NAMES| && |clocks| == 2 * |rs| && j < |rs|
    ensures AgentCallbacks(rs, clocks)[2 * j] == Timed(OnAgentStart(Some(AGENT_NAMES[j])), clocks[2 * j])
    ensures AgentCallbacks(rs, clocks)[2 * j + 1] == Timed(OnAgentComplete(Some(AGENT_NAMES[j]), AgentData(rs[j])), clocks[2 * j + 1])
  {
    var n := |rs| - 1;
    if j < n {
      AgentCallbacksAt(rs[..n], clocks[..2 * n], j);
    }
  }

  /** The agent events change nothing but the feed. */
  lemma {:induction false} AgentRunKeeps(v: ContextValue, rs: seq<Records.AgentResult>, clocks: seq<Clock>)
    requires |rs| <= |AGENT_NAMES| && |clocks| == 2 * |rs|
    ensures Run(v, AgentCallbacks(rs, clocks)).(liveFeed := v.liveFeed) == v
  {
    if rs != [] {
      var n := |rs| - 1;
      var front := AgentCallbacks(rs[..n], clocks[..2 * n]);
      var a := Timed(OnAgentStart(Some(AGENT_NAMES[n])), clocks[2 * n]);
      var b := Timed(OnAgentComplete(Some(AGENT_NAMES[n]), AgentData(rs[n])), clocks[2 * n + 1]);
      var w := Run(v, front);
      assert Run(v, AgentCallbacks(rs, clocks)) == Step(Step(w, a.cb, a.clock), b.cb, b.clock) by {
        assert AgentCallbacks(rs, clocks) == front + [a, b];
        RunPair(v, front, a, b);
      }
      assert w.(liveFeed := v.liveFeed) == v by {
        AgentRunKeeps(v, rs[..n], clocks[..2 * n]);
      }
    }
  }

  /** The agent events add one feed entry per result, at its agent-complete clock reading. */
  lemma {:induction false} AgentRunItems(rs: seq<Records.AgentResult>, clocks: seq<Clock>)
    requires |rs| <= |AGENT_NAMES| && |clocks| == 2 * |rs|
    ensures var items := Items(AgentCallbacks(rs, clocks));
            && |items| == |rs|
            && forall j :: 0 <= j < |rs| ==> items[j] == FeedItemOf(rs[j], clocks[2 * j + 1])
  {
    if rs != [] {
      var n := |rs| - 1;
      assert rs == rs[..n] + [rs[n]] && clocks == clocks[..2 * n] + [clocks[2 * n], clocks[2 * n + 1]];
      AgentItemsSnoc(rs[..n], rs[n], clocks[..2 * n], clocks[2 * n], clocks[2 * n + 1]);
      AgentRunItems(rs[..n], clocks[..2 * n]);
      EntriesExtend(Items(AgentCallbacks(rs, clocks)), Items(AgentCallbacks(rs[..n], clocks[..2 * n])), rs, clocks, n);
    }
  }

  /** The last agent's two events add its entry, and only that, after the others'. */
  lemma AgentItemsSnoc(init: seq<Records.AgentResult>, r: Records.AgentResult, cl: seq<Clock>, c0: Clock, c1: Clock)
    requires |init| < |AGENT_NAMES| && |cl| == 2 * |init|
    ensures Items(AgentCallbacks(init + [r], cl + [c0, c1])) == Items(AgentCallbacks(init, cl)) + [FeedItemOf(r, c1)]
  {
    var rs := init + [r];
    var clocks := cl + [c0, c1];
    var n := |init|;
    assert rs[..n] == init && rs[n] == r;
    assert clocks[..2 * n] == cl && clocks[2 * n] == c0 && clocks[2 * n + 1] == c1;
    var front := AgentCallbacks(init, cl);
    var a := Timed(OnAgentStart(Some(AGENT_NAMES[n])), c0);
    var b := Timed(OnAgentComplete(Some(AGENT_NAMES[n]), AgentData(r)), c1);
    assert AgentCallbacks(rs, clocks) == front + [a, b];
    assert ItemOf(a) == [] && ItemOf(b) == [FeedItemOf(r, c1)];
    ItemsPair(front, a, b);
  }

  lemma ItemsPair(ts: seq<Timed>, a: Timed, b: Timed)
    ensures Items(ts + [a, b]) == Items(ts) + ItemOf(a) + ItemOf(b)
  {
    assert ts + [a, b] == (ts + [a]) + [b];
    ItemsSnoc(ts + [a], b);
    ItemsSnoc(ts, a);
  }

  lemma ItemsSnoc(ts: seq<Timed>, t: Timed)
    ensures Items(ts + [t]) == Items(ts) + ItemOf(t)
  {
    assert (ts + [t])[..|ts|] == ts && Last(ts + [t]) == t;
  }

  lemma EntriesExtend(items: seq<FeedItem>, earlier: seq<FeedItem>, rs: seq<Records.AgentResult>, clocks: seq<Clock>,
                      n: nat)
    requires n + 1 == |rs| && |clocks| == 2 * |rs|
    requires items == earlier + [FeedItemOf(rs[n], clocks[2 * n + 1])]
    requires |earlier| == |rs[..n]|
    requires forall j :: 0 <= j < |rs[..n]| ==> earlier[j] == FeedItemOf(rs[..n][j], clocks[..2 * n][2 * j + 1])
    ensures |items| == |rs| && forall j :: 0 <= j < |rs| ==> items[j] == FeedItemOf(rs[j], clocks[2 * j + 1])
  {
    forall j | 0 <= j < |rs|
      ensures items[j] == FeedItemOf(rs[j], clocks[2 * j + 1])
    {
      if j < n {
        assert items[j] == earlier[j];
        assert rs[..n][j] == rs[j];
        assert clocks[..2 * n][2 * j + 1] == clocks[2 * j + 1];
      }
    }
  }

  /** The callbacks of a full stream: connected, signals-ready, the agents', score-ready and complete. */
  lemma EventsCallbacks(sr: Records.SignalResult, rs: seq<Records.AgentResult>, an: Analysis, clocks: seq<Clock>)
    requires |rs| == |AGENT_NAMES| && |clocks| == 14
    ensures Callbacks(Websocket.Events(sr, rs, an), clocks) ==
            [Timed(OnConnected, clocks[0]), Timed(OnSignalsReady(SignalsData(sr)), clocks[1])]
            + AgentCallbacks(rs, clocks[2..12])
            + [Timed(OnRiskScoreReady(AnalysisData(an)), clocks[12]), Timed(OnComplete, clocks[13])]
  {
    var head := [Websocket.Connected(Websocket.CONNECTED_MESSAGE), Websocket.SignalsReady(sr)];
    var mev := Websocket.AgentEvents(rs);
    var tail := [Websocket.RiskScoreReady(an), Websocket.Complete(Websocket.COMPLETE_MESSAGE)];
    assert clocks == clocks[..2] + clocks[2..12] + clocks[12..];
    CallbacksAppend(head + mev, tail, clocks[..2] + clocks[2..12], clocks[12..]);
    CallbacksAppend(head, mev, clocks[..2], clocks[2..12]);
    AgentCallbacksOfEvents(rs, clocks[2..12]);
    assert Callbacks(head, clocks[..2]) == [Timed(OnConnected, clocks[0]), Timed(OnSignalsReady(SignalsData(sr)), clocks[1])] by {
      CallbacksAt(head, clocks[..2], 0);
      CallbacksAt(head, clocks[..2], 1);
    }
    assert Callbacks(tail, clocks[12..]) == [Timed(OnRiskScoreReady(AnalysisData(an)), clocks[12]), Timed(OnComplete, clocks[13])] by {
      CallbacksAt(tail, clocks[12..], 0);
      CallbacksAt(tail, clocks[12..], 1);
    }
  }

  /**
   * A full stream, started from any state: the analysis it delivers is
   * applied, loading ends, the backend shows online, and the feed holds the
   * five agents' entries, the last agent first.
   */
  lemma StreamRun(v: ContextValue, sr: Records.SignalResult, rs: seq<Records.AgentResult>, an: Analysis,
                  clocks: seq<Clock>)
    requires |rs| == |AGENT_NAMES| && |clocks| == 14
    ensures var w := Run(Started(v), Callbacks(Websocket.Events(sr, rs, an), clocks));
            && w.analysis == Some(an) && !w.loading && w.error.None? && w.backendOnline
            && w.lastUpdated == LastUpdatedText(an.timestamp, clocks[12])
            && |w.liveFeed| == 5
            && forall k :: 0 <= k < 5 ==> w.liveFeed[k] == FeedItemOf(rs[4 - k], clocks[11 - 2 * k])
  {
    var w := Run(Started(v), Callbacks(Websocket.Events(sr, rs, an), clocks));
    var items := Items(AgentCallbacks(rs, clocks[2..12]));
    StreamState(v, sr, rs, an, clocks);
    AgentRunItems(rs, clocks[2..12]);
    FiveReversed(w.liveFeed, items);
    NewestFirstFive(w.liveFeed, items, rs, clocks);
  }

  /** The state a full stream leaves: the analysis applied, and the feed the agent entries newest first. */
  lemma StreamState(v: ContextValue, sr: Records.SignalResult, rs: seq<Records.AgentResult>, an: Analysis,
                    clocks: seq<Clock>)
    requires |rs| == |AGENT_NAMES| && |clocks| == 14
    ensures var w := Run(Started(v), Callbacks(Websocket.Events(sr, rs, an), clocks));
            && w.analysis == Some(an) && !w.loading && w.error.None? && w.backendOnline
            && w.lastUpdated == LastUpdatedText(an.timestamp, clocks[12])
            && w.liveFeed == Slice(Reversed(Items(AgentCallbacks(rs, clocks[2..12]))), FEED_SIZE)
  {
    EventsCallbacks(sr, rs, an, clocks);
    FramedRun(v, SignalsData(sr), rs, clocks[2..12], an, clocks[0], clocks[1], clocks[12], clocks[13]);
  }

  /** The callbacks of a full stream, in order, from any starting state. */
  lemma FramedRun(v: ContextValue, sdata: Payload, rs: seq<Records.AgentResult>, cl: seq<Clock>, an: Analysis,
                  c0: Clock, c1: Clock, c12: Clock, c13: Clock)
    requires |rs| == |AGENT_NAMES| && |cl| == 10
    ensures var mid := AgentCallbacks(rs, cl);
            var w := Run(Started(v), [Timed(OnConnected, c0), Timed(OnSignalsReady(sdata), c1)] + mid
                                     + [Timed(OnRiskScoreReady(AnalysisData(an)), c12), Timed(OnComplete, c13)]);
            && w.analysis == Some(an) && !w.loading && w.error.None? && w.backendOnline
            && w.lastUpdated == LastUpdatedText(an.timestamp, c12)
            && w.liveFeed == Slice(Reversed(Items(mid)), FEED_SIZE)
  {
    var c := Timed(OnConnected, c0);
    var s := Timed(OnSignalsReady(sdata), c1);
    var mid := AgentCallbacks(rs, cl);
    var r := Timed(OnRiskScoreReady(AnalysisData(an)), c12);
    var d := Timed(OnComplete, c13);
    var ts := [c, s] + mid + [r, d];
    var s0 := Started(v);
    var s2 := Run(s0, [c, s] + mid);
    OpeningRun(v, sdata, rs, cl, c0, c1);
    var w := Run(s0, ts);
    assert w == Step(Step(s2, r.cb, r.clock), d.cb, d.clock) && Items(ts) == Items(mid) by {
      RunPair(s0, [c, s] + mid, r, d);
    }
    assert w.analysis == Some(an) && !w.loading && w.error.None? && w.backendOnline
           && w.lastUpdated == LastUpdatedText(an.timestamp, c12) by {
      ScoreThenComplete(s2, an, c12, c13);
    }
    assert w.liveFeed == Slice(Reversed(Items(mid)), FEED_SIZE) by {
      StartedRunFeed(v, ts);
    }
  }

  /** Connected, signals-ready and the agent events mark the backend online and change nothing else but the feed. */
  lemma OpeningRun(v: ContextValue, sdata: Payload, rs: seq<Records.AgentResult>, cl: seq<Clock>, c0: Clock, c1: Clock)
    requires |rs| == |AGENT_NAMES| && |cl| == 10
    ensures var mid := AgentCallbacks(rs, cl);
            var opening := [Timed(OnConnected, c0), Timed(OnSignalsReady(sdata), c1)] + mid;
            && Run(Started(v), opening) == Started(v).(backendOnline := true, liveFeed := Run(Started(v), opening).liveFeed)
            && Items(opening) == Items(mid)
  {
    var c := Timed(OnConnected, c0);
    var s := Timed(OnSignalsReady(sdata), c1);
    var mid := AgentCallbacks(rs, cl);
    var s0 := Started(v);
    var s1 := Run(s0, [c, s]);
    assert s1 == s0.(backendOnline := true) && Items([c, s]) == [] by {
      RunPair(s0, [], c, s);
      assert [] + [c, s] == [c, s];
    }
    RunAppend(s0, [c, s], mid);
    AgentRunKeeps(s1, rs, cl);
  }

  lemma ScoreThenComplete(v: ContextValue, an: Analysis, c12: Clock, c13: Clock)
    ensures Step(Step(v, OnRiskScoreReady(AnalysisData(an)), c12), OnComplete, c13)
            == ContextValue(Some(an), false, None, v.liveFeed, LastUpdatedText(an.timestamp, c12), true)
  {
  }

  lemma NewestFirstFive(feed: seq<FeedItem>, items: seq<FeedItem>, rs: seq<Records.AgentResult>, clocks: seq<Clock>)
    requires |rs| == 5 && |clocks| == 14
    requires |items| == |rs| && forall j :: 0 <= j < |rs| ==> items[j] == FeedItemOf(rs[j], clocks[2..12][2 * j + 1])
    requires |feed| == 5 && forall k :: 0 <= k < 5 ==> feed[k] == items[4 - k]
    ensures forall k :: 0 <= k < 5 ==> feed[k] == FeedItemOf(rs[4 - k], clocks[11 - 2 * k])
  {
    forall k | 0 <= k < 5
      ensures feed[k] == FeedItemOf(rs[4 - k], clocks[11 - 2 * k])
    {
      AgentClockAt(clocks, k);
    }
  }

  /** The newest-first feed of five items within the feed's size is those items reversed. */
  lemma FiveReversed<T>(feed: seq<T>, items: seq<T>)
    requires |items| == 5 && feed == Slice(Reversed(items), FEED_SIZE)
    ensures |feed| == 5 && forall k :: 0 <= k < 5 ==> feed[k] == items[4 - k]
  {
    forall k | 0 <= k < 5
      ensures feed[k] == items[4 - k]
    {
      ReversedAt(items, k);
    }
  }

  /** The clock of the agent k places from the end of the run. */
  lemma AgentClockAt(clocks: seq<Clock>, k: int)
    requires |clocks| == 14 && 0 <= k < 5
    ensures clocks[2..12][2 * (4 - k) + 1] == clocks[11 - 2 * k]
  {
  }

  /**
   * A run against this server when the project state loads: the session
   * ends with the server's full analysis, and the feed names the five
   * agents, the last one to finish first.
   */
  lemma LoadedRunAgainstServer(v: ContextValue, data: Records.ProjectData, rank: map<string, nat>,
                               calls: seq<LlmReply.LlmCall>, decode: LlmReply.Decoder, silent: seq<string>,
                               clocks: seq<Clock>)
    requires SignalExtractor.Ranked(SignalExtractor.Adjacency(data.tasks), rank)
    requires |calls| == |AGENT_NAMES| && |clocks| == 14
    ensures var a := RunFullAnalysis(data, rank, calls, decode, silent);
            var w := Run(Started(v), Callbacks(Websocket.Trace(Some(data), rank, calls, decode, silent), clocks));
            && w.analysis == Some(a) && !w.loading && w.error.None? && w.backendOnline
            && |w.liveFeed| == 5
            && forall k :: 0 <= k < 5 ==>
                 w.liveFeed[k].name == Upper(Records.AGENT_KEYS[4 - k]) && w.liveFeed[k].text == a.agents[4 - k].reasoning
  {
    var a := RunFullAnalysis(data, rank, calls, decode, silent);
    var sr := SignalExtractor.ExtractSignals(data, rank);
    assert Websocket.Trace(Some(data), rank, calls, decode, silent) == Websocket.Events(sr, a.agents, a) by {
      Websocket.TraceShape(data, rank, calls, decode, silent);
    }
    var w := Run(Started(v), Callbacks(Websocket.Events(sr, a.agents, a), clocks));
    StreamRun(v, sr, a.agents, a, clocks);
    assert forall j :: 0 <= j < 5 ==> a.agents[j].agent == AGENT_NAMES[j] by {
      EntriesNamed(sr.signals, data, rank, calls, decode, silent);
    }
    FeedNamesOfAgents();
  }

  /**
   * A run against this server when the project state does not load: the
   * stream's error starts the REST fallback, which fails with status 500,
   * so the session reports the backend unavailable and keeps the analysis
   * it had.
   */
  lemma FailedLoadAgainstServer(v: ContextValue, rank: map<string, nat>, calls: seq<LlmReply.LlmCall>,
                                decode: LlmReply.Decoder, silent: seq<string>, clocks: seq<Clock>, settled: Clock)
    requires |calls| == |AGENT_NAMES| && |clocks| == 2
    ensures var ts := Callbacks(Websocket.Trace(None, rank, calls, decode, silent), clocks);
            var w := Run(Started(v), ts);
            var reply := GetAnalysis(Served(Routes.GetAnalysis(None, rank, calls, decode, silent)));
            && !Fetches(ts[0].cb) && Fetches(ts[1].cb)
            && w == Started(v).(backendOnline := true)
            && reply == Failure("Analysis fetch failed: 500")
            && Fallback(w, Failure(reply.error), settled)
               == Started(v).(loading := false, backendOnline := false, error := Some(ERROR_TEXT))
  {
    var ev := Websocket.Trace(None, rank, calls, decode, silent);
    var ts := Callbacks(ev, clocks);
    assert ts == [] + [Timed(OnConnected, clocks[0]), Timed(OnError(Some(Websocket.ERROR_MESSAGE)), clocks[1])] by {
      CallbacksAt(ev, clocks, 0);
      CallbacksAt(ev, clocks, 1);
    }
    RunPair(Started(v), [], ts[0], ts[1]);
    GetAnalysisAgainstServer(None, rank, calls, decode, silent);
  }

  // ---------------------------------------------------------------------
  // The provider

  /**
   * `RiskProvider`'s state. `wsRef` is the run's socket, which is also the
   * API module's `_ws`; `fetches` counts the REST fallbacks started.
   */
  class Session {
    var analysis: Option<Analysis>
    var loading: bool
    var error: Option<string>
    var liveFeed: seq<FeedItem>
    var lastUpdated: string
    var backendOnline: bool
    var wsRef: Socket?
    const transport: Transport
    ghost var fetches: nat

    function Value(): ContextValue
      reads this
    {
      ContextValue(analysis, loading, error, liveFeed, lastUpdated, backendOnline)
    }

    ghost predicate Valid()
      reads this, transport, transport.sockets
    {
      transport.Valid() && wsRef == transport.ws
    }

    constructor (t: Transport)
      requires t.Valid() && t.ws == null
      ensures Valid() && Value() == INITIAL && transport == t && wsRef == null && fetches == 0
    {
      analysis := None;
      loading := false;
      error := None;
      liveFeed := [];
      lastUpdated := "Loading…";
      backendOnline := false;
      wsRef := null;
      transport := t;
      fetches := 0;
    }

    /** `connect` (the `refresh` the pages call): reset the run's values, close the old socket, open a new one. */
    method StartRun()
      requires Valid()
      modifies this, transport, transport.sockets
      ensures Valid() && Value() == Started(old(Value())) && fetches == old(fetches)
      ensures fresh(wsRef) && wsRef.readyState == CONNECTING && transport.Live() == {wsRef}
      ensures old(wsRef) != null ==>
                old(wsRef).readyState == if old(wsRef.readyState) < CLOSING then CLOSING else old(wsRef.readyState)
    {
      loading := true;
      liveFeed := [];
      lastUpdated := RUNNING;
      if wsRef != null && wsRef.readyState < CLOSING {
        wsRef.Close();
      }
      var ws := transport.ConnectWebSocket();
      wsRef := ws;
    }

    /** The provider's handler for one callback; an error starts the REST fallback. */
    method Handle(cb: Callback, clock: Clock)
      requires Valid()
      modifies this
      ensures Valid() && wsRef == old(wsRef)
      ensures Value() == Step(old(Value()), cb, clock)
      ensures fetches == old(fetches) + if Fetches(cb) then 1 else 0
    {
      match cb {
        case OnConnected =>
          backendOnline := true;
        case OnSignalsReady(_) =>
        case OnAgentStart(_) =>
        case OnAgentComplete(_, data) =>
          if data.AgentData? {
            liveFeed := Push(liveFeed, FeedItemOf(data.result, clock));
          }
        case OnRiskScoreReady(data) =>
          if data.AnalysisData? {
            ApplyAnalysis(data.analysis, clock);
          }
        case OnComplete =>
          loading := false;
        case OnError(_) =>
          fetches := fetches + 1;
      }
    }

    /** A message on the run's socket, dispatched by its event name. */
    method OnMessage(msg: Option<Frame>, clock: Clock)
      requires Valid()
      modifies this
      ensures Valid() && wsRef == old(wsRef)
      ensures Dispatch(msg).None? ==> Value() == old(Value()) && fetches == old(fetches)
      ensures Dispatch(msg).Some? ==> Value() == Step(old(Value()), Dispatch(msg).value, clock)
    {
      var cb := Dispatch(msg);
      if cb.Some? {
        Handle(cb.value, clock);
      }
    }

    /** `applyAnalysis`. */
    method ApplyAnalysis(a: Analysis, clock: Clock)
      modifies this
      ensures Value() == Applied(old(Value()), a, clock)
      ensures wsRef == old(wsRef) && fetches == old(fetches)
    {
      analysis := Some(a);
      backendOnline := true;
      error := None;
      lastUpdated := LastUpdatedText(a.timestamp, clock);
      loading := false;
    }

    /** The settled REST fallback: its analysis is applied, or its failure reported. */
    method FallbackResult(fetched: Result<Analysis, string>, clock: Clock)
      requires Valid()
      modifies this
      ensures Valid() && wsRef == old(wsRef) && fetches == old(fetches)
      ensures Value() == Fallback(old(Value()), fetched, clock)
    {
      match fetched {
        case Success(a) =>
          ApplyAnalysis(a, clock);
        case Failure(_) =>
          loading := false;
          backendOnline := false;
          error := Some(ERROR_TEXT);
      }
    }

    /** The provider's unmount cleanup: `closeWebSocket`. */
    method Unmount()
      requires Valid()
      modifies transport.sockets
      ensures Valid() && transport.Live() == {}
    {
      transport.CloseWebSocket();
    }
  }
}
