/**
 * api/websocket.py: the live analysis stream. The handler checks the
 * connection's origin by hand, then sends a fixed sequence of events while
 * it runs the extractor, the five agents one after another and the risk
 * formula. The socket is modelled by the number of messages the peer takes
 * before it goes away: a send after that raises, and the handler stops.
 */
module Websocket {
  import opened Wrappers
  import opened Text
  import opened Records
  import opened SignalExtractor
  import opened LlmReply
  import opened SupervisorAgent

  /** Policy violation: the close code of section 7.4.1 of RFC 6455. */
  const POLICY_VIOLATION := 1008

  const CONNECTED_MESSAGE := "Meridian analysis starting"
  const COMPLETE_MESSAGE := "Analysis complete"
  const ERROR_MESSAGE := "An unexpected error occurred during WebSocket analysis."

  datatype Event =
    | Connected(message: string)
    | SignalsReady(signals: SignalResult)
    | AgentStart(agent: string)
    | AgentComplete(agent: string, result: AgentResult)
    | RiskScoreReady(analysis: Analysis)
    | Complete(message: string)
    | Error(message: string)

  // ---------------------------------------------------------------------
  // The origin check

  const LOCALHOST := "http://localhost"
  const LOOPBACK := "http://127.0.0.1"

  /** No origin header at all, or an origin that starts with a local address. */
  predicate Allowed(origin: string) {
    origin == "" || StartsWith(origin, LOCALHOST) || StartsWith(origin, LOOPBACK)
  }

  /** The check is a prefix test: whatever follows an allowed origin, the origin stays allowed. */
  lemma {:induction false} AllowedExtends(origin: string, rest: string)
    requires Allowed(origin) && origin != ""
    ensures Allowed(origin + rest)
  {
    var s := origin + rest;
    if StartsWith(origin, LOCALHOST) {
      assert s[..|LOCALHOST|] == origin[..|LOCALHOST|];
    } else {
      assert s[..|LOOPBACK|] == origin[..|LOOPBACK|];
    }
  }

  /** A host that merely begins like `localhost` passes; another scheme does not. */
  lemma LookalikeOrigins()
    ensures Allowed("http://localhost.example.net")
    ensures !Allowed("https://localhost:3000")
  {
    AllowedExtends(LOCALHOST, ".example.net");
    assert "https://localhost:3000"[4] != LOCALHOST[4];
    assert "https://localhost:3000"[4] != LOOPBACK[4];
  }

  // ---------------------------------------------------------------------
  // The intended trace

  /** What the stream reports for the `i`-th agent: its result, or a failure record under its own name. */
  function StreamEntry(i: nat, outcome: Result<AgentResult, string>): (r: AgentResult)
    requires i < |AGENT_NAMES|
    ensures outcome.Success? ==> r == outcome.value
    ensures outcome.Failure? ==> r == FailedResult(AGENT_NAMES[i], outcome.error)
  {
    match outcome
    case Success(v) => v
    case Failure(e) => FailedResult(AGENT_NAMES[i], e)
  }

  /** The two events the stream sends around the `j`-th agent's run. */
  function AgentPair(j: nat, result: AgentResult): seq<Event>
    requires j < |AGENT_NAMES|
  {
    [AgentStart(AGENT_NAMES[j]), AgentComplete(AGENT_NAMES[j], result)]
  }

  /** An `agent_start` and an `agent_complete` event per result, in running order. */
  function AgentEvents(results: seq<AgentResult>): (ev: seq<Event>)
    requires |results| <= |AGENT_NAMES|
    ensures |ev| == 2 * |results|
  {
    if results == [] then []
    else AgentEvents(results[..|results| - 1]) + AgentPair(|results| - 1, Last(results))
  }

  /** The events of the `j`-th agent sit at positions `2j` and `2j + 1`. */
  lemma {:induction false} AgentEventsAt(results: seq<AgentResult>, j: nat)
    requires |results| <= |AGENT_NAMES| && j < |results|
    ensures AgentEvents(results)[2 * j] == AgentStart(AGENT_NAMES[j])
    ensures AgentEvents(results)[2 * j + 1] == AgentComplete(AGENT_NAMES[j], results[j])
    decreases |results|
  {
    var init := results[..|results| - 1];
    if j < |init| {
      AgentEventsAt(init, j);
      assert init[j] == results[j];
    }
  }

  /** The five stream results for the loaded data. */
  function StreamResults(sr: SignalResult, data: ProjectData, ghost rank: map<string, nat>, calls: seq<LlmCall>,
                         decode: Decoder, silent: seq<string>): (rs: seq<AgentResult>)
    requires Ranked(Adjacency(data.tasks), rank)
    requires |calls| == |AGENT_NAMES|
    ensures |rs| == |AGENT_NAMES|
  {
    seq(|AGENT_NAMES|, i requires 0 <= i < |AGENT_NAMES| =>
          StreamEntry(i, Outcome(i, sr.signals, data, rank, calls[i], decode, silent)))
  }

  /** The stream names a failed agent as the supervisor does, so both report the same results. */
  lemma StreamResultsAreEntries(sr: SignalResult, data: ProjectData, rank: map<string, nat>, calls: seq<LlmCall>,
                                decode: Decoder, silent: seq<string>)
    requires Ranked(Adjacency(data.tasks), rank)
    requires |calls| == |AGENT_NAMES|
    ensures StreamResults(sr, data, rank, calls, decode, silent) == Entries(sr.signals, data, rank, calls, decode, silent)
  {
    var rs := StreamResults(sr, data, rank, calls, decode, silent);
    var es := Entries(sr.signals, data, rank, calls, decode, silent);
    forall i | 0 <= i < |AGENT_NAMES|
      ensures rs[i] == es[i]
    {
      SegmentAfterPackage(PACKAGE, AGENT_NAMES[i]);
    }
  }

  /** The successful trace for given signals, agent results and analysis. */
  function Events(sr: SignalResult, rs: seq<AgentResult>, analysis: Analysis): seq<Event>
    requires |rs| <= |AGENT_NAMES|
  {
    [Connected(CONNECTED_MESSAGE), SignalsReady(sr)] + AgentEvents(rs) + [RiskScoreReady(analysis), Complete(COMPLETE_MESSAGE)]
  }

  /**
   * Every event the handler means to send to an allowed peer; `load` is the
   * project state read from disk, `None` when reading or decoding it fails.
   */
  function Trace(load: Option<ProjectData>, ghost rank: map<string, nat>, calls: seq<LlmCall>, decode: Decoder,
                 silent: seq<string>): (t: seq<Event>)
    requires load.Some? ==> Ranked(Adjacency(load.value.tasks), rank)
    requires |calls| == |AGENT_NAMES|
  {
    match load
    case None => [Connected(CONNECTED_MESSAGE), Error(ERROR_MESSAGE)]
    case Some(data) =>
      var sr := ExtractSignals(data, rank);
      var rs := StreamResults(sr, data, rank, calls, decode, silent);
      Events(sr, rs, Assemble(sr, rs, data))
  }

  /**
   * Connected, signals_ready, a start and a complete event per agent in the
   * fixed order, then risk_score_ready and complete.
   */
  lemma EventsShape(sr: SignalResult, rs: seq<AgentResult>, analysis: Analysis)
    requires |rs| == |AGENT_NAMES|
    ensures var t := Events(sr, rs, analysis);
            && |t| == 14
            && t[0] == Connected(CONNECTED_MESSAGE) && t[1] == SignalsReady(sr)
            && (forall j :: 0 <= j < 5 ==> t[2 + 2 * j] == AgentStart(AGENT_NAMES[j]) &&
                                           t[3 + 2 * j] == AgentComplete(AGENT_NAMES[j], rs[j]))
            && t[12] == RiskScoreReady(analysis) && t[13] == Complete(COMPLETE_MESSAGE)
  {
    var ev := AgentEvents(rs);
    var t := Events(sr, rs, analysis);
    forall j | 0 <= j < 5
      ensures t[2 + 2 * j] == AgentStart(AGENT_NAMES[j]) && t[3 + 2 * j] == AgentComplete(AGENT_NAMES[j], rs[j])
    {
      AgentEventsAt(rs, j);
      assert t[2 + 2 * j] == ev[2 * j];
      assert t[3 + 2 * j] == ev[2 * j + 1];
    }
  }

  /**
   * With the data loaded, the trace is the successful one for the extracted
   * signals, whose risk_score_ready event carries the analysis the REST route
   * answers with, and whose completed results are that analysis's agents.
   */
  lemma TraceShape(data: ProjectData, rank: map<string, nat>, calls: seq<LlmCall>, decode: Decoder,
                   silent: seq<string>)
    requires Ranked(Adjacency(data.tasks), rank)
    requires |calls| == |AGENT_NAMES|
    ensures var a := RunFullAnalysis(data, rank, calls, decode, silent);
            Trace(Some(data), rank, calls, decode, silent) == Events(ExtractSignals(data, rank), a.agents, a)
  {
    var sr := ExtractSignals(data, rank);
    StreamResultsAreEntries(sr, data, rank, calls, decode, silent);
  }

  /** A successful trace holds no error event. */
  lemma NoErrorInEvents(sr: SignalResult, rs: seq<AgentResult>, analysis: Analysis)
    requires |rs| == |AGENT_NAMES|
    ensures forall e :: e in Events(sr, rs, analysis) ==> !e.Error?
  {
    var t := Events(sr, rs, analysis);
    EventsShape(sr, rs, analysis);
    forall k | 0 <= k < |t|
      ensures !t[k].Error?
    {
      if 2 <= k < 12 {
        var j := (k - 2) / 2;
        AgentEventsAt(rs, j);
        assert t[k] == AgentEvents(rs)[k - 2];
      }
    }
  }

  /** So an error event is sent only when loading the data failed, and then just once. */
  lemma ErrorOnlyOnFailedLoad(load: Option<ProjectData>, rank: map<string, nat>, calls: seq<LlmCall>,
                              decode: Decoder, silent: seq<string>)
    requires load.Some? ==> Ranked(Adjacency(load.value.tasks), rank)
    requires |calls| == |AGENT_NAMES|
    ensures (exists e :: e in Trace(load, rank, calls, decode, silent) && e.Error?) <==> load.None?
    ensures load.None? ==> Trace(load, rank, calls, decode, silent) == [Connected(CONNECTED_MESSAGE), Error(ERROR_MESSAGE)]
  {
    if load.Some? {
      var data := load.value;
      TraceShape(data, rank, calls, decode, silent);
      var a := RunFullAnalysis(data, rank, calls, decode, silent);
      NoErrorInEvents(ExtractSignals(data, rank), a.agents, a);
    } else {
      assert Trace(load, rank, calls, decode, silent)[1].Error?;
    }
  }

  // ---------------------------------------------------------------------
  // The handler

  /** The first `n` events, or all of them when there are fewer. */
  function Take(t: seq<Event>, n: nat): (p: seq<Event>)
    ensures |p| <= n && |p| <= |t|
    ensures p == t[..|p|]
    ensures |t| <= n ==> p == t
  {
    if |t| <= n then t else t[..n]
  }

  lemma PrefixStep<T>(t: seq<T>, n: nat)
    requires n < |t|
    ensures t[..n + 1] == t[..n] + [t[n]]
  {
  }

  /** One `send_json`: delivered while the peer is still there, raising otherwise. */
  method Send(sent: seq<Event>, ev: Event, peer: nat) returns (out: seq<Event>, ok: bool)
    ensures ok <==> |sent| < peer
    ensures out == if ok then sent + [ev] else sent
  {
    ok := |sent| < peer;
    out := if ok then sent + [ev] else sent;
  }

  /**
   * `websocket_analysis`: `peer` is the number of messages the client takes
   * before disconnecting. A rejected origin is closed with 1008 and sent
   * nothing; otherwise the client receives the intended trace up to the
   * point it went away.
   */
  method WebsocketAnalysis(origin: string, load: Option<ProjectData>, ghost rank: map<string, nat>,
                           calls: seq<LlmCall>, decode: Decoder, silent: seq<string>, peer: nat)
    returns (closeCode: Option<int>, sent: seq<Event>)
    requires load.Some? ==> Ranked(Adjacency(load.value.tasks), rank)
    requires |calls| == |AGENT_NAMES|
    ensures !Allowed(origin) ==> closeCode == Some(POLICY_VIOLATION) && sent == []
    ensures Allowed(origin) ==> closeCode == None && sent == Take(Trace(load, rank, calls, decode, silent), peer)
  {
    if !Allowed(origin) {
      return Some(POLICY_VIOLATION), [];
    }
    closeCode := None;
    ghost var full := Trace(load, rank, calls, decode, silent);
    var ok;
    sent, ok := Send([], Connected(CONNECTED_MESSAGE), peer);
    if !ok {
      return;
    }
    match load
    case None =>
      // A failed error send is swallowed.
      sent, ok := Send(sent, Error(ERROR_MESSAGE), peer);
    case Some(data) =>
      sent := Stream(data, rank, calls, decode, silent, peer, sent);
  }

  /** From signals_ready on, for loaded data, after the greeting was delivered. */
  method Stream(data: ProjectData, ghost rank: map<string, nat>, calls: seq<LlmCall>, decode: Decoder,
                silent: seq<string>, peer: nat, greeting: seq<Event>)
    returns (sent: seq<Event>)
    requires Ranked(Adjacency(data.tasks), rank)
    requires |calls| == |AGENT_NAMES|
    requires greeting == [Connected(CONNECTED_MESSAGE)] && 1 <= peer
    ensures sent == Take(Trace(Some(data), rank, calls, decode, silent), peer)
  {
    var sr := Extract(data, rank);
    TraceUnfolds(data, rank, calls, decode, silent, sr);
    ghost var rs := StreamResults(sr, data, rank, calls, decode, silent);
    var run := Runner(sr, data, rank, calls, decode, silent);
    sent := StreamSignals(sr, data, run, rs, peer, greeting);
  }

  /** `agent_module.analyze(signals, data)` for the `i`-th agent, guarded by the handler's own fallback. */
  method Runner(sr: SignalResult, data: ProjectData, ghost rank: map<string, nat>, calls: seq<LlmCall>,
                decode: Decoder, silent: seq<string>)
    returns (run: nat --> AgentResult)
    requires Ranked(Adjacency(data.tasks), rank)
    requires |calls| == |AGENT_NAMES|
    ensures forall i :: 0 <= i < |AGENT_NAMES| ==>
              run.requires(i) && run(i) == StreamResults(sr, data, rank, calls, decode, silent)[i]
  {
    run := (i: nat) requires i < |AGENT_NAMES| =>
             StreamEntry(i, Outcome(i, sr.signals, data, rank, calls[i], decode, silent));
    ghost var rs := StreamResults(sr, data, rank, calls, decode, silent);
    forall i | 0 <= i < |AGENT_NAMES|
      ensures run.requires(i) && run(i) == rs[i]
    {
      assert rs[i] == StreamEntry(i, Outcome(i, sr.signals, data, rank, calls[i], decode, silent));
    }
  }

  /**
   * The events after the greeting, once the signals are extracted; `run(i)`
   * runs the `i`-th agent and `rs` holds what the runs produce.
   */
  method StreamSignals(sr: SignalResult, data: ProjectData, run: nat --> AgentResult, ghost rs: seq<AgentResult>,
                       peer: nat, greeting: seq<Event>)
    returns (sent: seq<Event>)
    requires |rs| == |AGENT_NAMES|
    requires forall i :: 0 <= i < |AGENT_NAMES| ==> run.requires(i) && run(i) == rs[i]
    requires greeting == [Connected(CONNECTED_MESSAGE)] && 1 <= peer
    ensures sent == Take([Connected(CONNECTED_MESSAGE), SignalsReady(sr)] + AgentEvents(rs) +
                         [RiskScoreReady(Assemble(sr, rs, data)), Complete(COMPLETE_MESSAGE)], peer)
  {
    var ok;
    sent, ok := Send(greeting, SignalsReady(sr), peer);
    if !ok {
      assert peer == 1 && sent == greeting;
      TakeGreeting(Connected(CONNECTED_MESSAGE), SignalsReady(sr), AgentEvents(rs),
                   [RiskScoreReady(Assemble(sr, rs, data)), Complete(COMPLETE_MESSAGE)]);
      return;
    }
    assert sent == [Connected(CONNECTED_MESSAGE), SignalsReady(sr)];
    sent := StreamAgents(sr, data, run, rs, peer, sent);
  }

  /** The agent loop, then risk_score_ready and complete; `start` is what was delivered before the loop. */
  method StreamAgents(sr: SignalResult, data: ProjectData, run: nat --> AgentResult, ghost rs: seq<AgentResult>,
                      peer: nat, start: seq<Event>)
    returns (sent: seq<Event>)
    requires |rs| == |AGENT_NAMES|
    requires forall i :: 0 <= i < |AGENT_NAMES| ==> run.requires(i) && run(i) == rs[i]
    requires |start| <= peer
    ensures sent == Take(start + AgentEvents(rs) + [RiskScoreReady(Assemble(sr, rs, data)), Complete(COMPLETE_MESSAGE)], peer)
  {
    ghost var tail := [RiskScoreReady(Assemble(sr, rs, data)), Complete(COMPLETE_MESSAGE)];
    var results, ok;
    sent, results, ok := SendAgents(run, rs, tail, peer, start);
    if !ok {
      return;
    }
    var closing := [RiskScoreReady(Assemble(sr, results, data)), Complete(COMPLETE_MESSAGE)];
    assert closing == tail;
    sent := SendLast(sent, closing, peer);
  }

  /** The closing sends, the handler stopping at the first that fails. */
  method SendLast(start: seq<Event>, events: seq<Event>, peer: nat) returns (sent: seq<Event>)
    requires |start| <= peer
    ensures sent == Take(start + events, peer)
  {
    sent := start;
    var i, ok := 0, true;
    while i < |events| && ok
      invariant 0 <= i <= |events|
      invariant ok ==> sent == start + events[..i] && |sent| <= peer
      invariant !ok ==> sent == Take(start + events, peer)
    {
      var before := sent;
      sent, ok := Send(sent, events[i], peer);
      if ok {
        assert events[..i + 1] == events[..i] + [events[i]];
      } else {
        assert (start + events)[..peer] == before;
      }
      i := i + 1;
    }
    if ok {
      assert events[..i] == events;
    }
  }

  lemma TraceUnfolds(data: ProjectData, rank: map<string, nat>, calls: seq<LlmCall>, decode: Decoder,
                     silent: seq<string>, sr: SignalResult)
    requires Ranked(Adjacency(data.tasks), rank)
    requires |calls| == |AGENT_NAMES|
    requires sr == ExtractSignals(data, rank)
    ensures var rs := StreamResults(sr, data, rank, calls, decode, silent);
            Trace(Some(data), rank, calls, decode, silent) ==
            [Connected(CONNECTED_MESSAGE), SignalsReady(sr)] + AgentEvents(rs) +
            [RiskScoreReady(Assemble(sr, rs, data)), Complete(COMPLETE_MESSAGE)]
  {
  }

  lemma TakeGreeting(greeting: Event, next: Event, middle: seq<Event>, tail: seq<Event>)
    ensures Take([greeting, next] + middle + tail, 1) == [greeting]
  {
    assert ([greeting, next] + middle + tail)[..1] == [greeting];
  }

  /**
   * The agent loop: an `agent_start` event, the run, and an `agent_complete`
   * event per agent, until the peer goes away; `tail` is what would follow.
   */
  method SendAgents(run: nat --> AgentResult, ghost rs: seq<AgentResult>, ghost tail: seq<Event>,
                    peer: nat, start: seq<Event>)
    returns (sent: seq<Event>, results: seq<AgentResult>, ok: bool)
    requires |rs| == |AGENT_NAMES|
    requires forall i :: 0 <= i < |AGENT_NAMES| ==> run.requires(i) && run(i) == rs[i]
    requires |start| <= peer
    ensures ok <==> |start| + 2 * |AGENT_NAMES| <= peer
    ensures ok ==> results == rs && sent == start + AgentEvents(rs)
    ensures !ok ==> sent == Take(start + AgentEvents(rs) + tail, peer)
  {
    ghost var full := start + AgentEvents(rs) + tail;
    sent, results, ok := start, [], true;
    var i := 0;
    while i < |AGENT_NAMES| && ok
      invariant 0 <= i <= |AGENT_NAMES|
      invariant |start| <= |sent| <= peer && |sent| <= |full|
      invariant sent == full[..|sent|]
      invariant ok ==> |sent| == |start| + 2 * i && results == rs[..i]
      invariant !ok ==> |sent| == peer < |start| + 2 * |AGENT_NAMES|
    {
      AgentEventsAt(rs, i);
      assert full[|start| + 2 * i] == AgentStart(AGENT_NAMES[i]);
      PrefixStep(full, |sent|);
      sent, ok := Send(sent, AgentStart(AGENT_NAMES[i]), peer);
      if ok {
        var result := run(i);
        PrefixStep(rs, i);
        assert full[|start| + 2 * i + 1] == AgentComplete(AGENT_NAMES[i], result);
        results := results + [result];
        PrefixStep(full, |sent|);
        sent, ok := Send(sent, AgentComplete(AGENT_NAMES[i], result), peer);
      }
      i := i + 1;
    }
    if ok {
      assert results == rs;
      assert full[..|start| + 2 * |AGENT_NAMES|] == start + AgentEvents(rs);
    }
  }
}
