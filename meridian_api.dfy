/**
 * react-app/src/api/meridianApi.ts: the client's view of the backend. Pure
 * helpers for colours, display scores and titles; the signal catalogue; the
 * REST calls, which throw on any status outside 200-299; and the live socket,
 * of which the module keeps a single one, whose messages are dispatched by
 * event name to the caller's callbacks.
 */
module MeridianApi {
  import opened Wrappers
  import opened Text
  import opened Records
  import opened SupervisorAgent
  import opened WhatIfEngine
  import Websocket
  import Routes

  // ---------------------------------------------------------------------
  // Helpers

  /** The class `riskColor` returns: 'critical', 'warning' or 'success'. */
  datatype ColorClass = CriticalClass | WarningClass | SuccessClass

  /** `riskColor`: 75 and 50 on the 0-100 scale. */
  function RiskColor(score: real): (c: ColorClass)
    ensures c == CriticalClass <==> score >= 75.0
    ensures c == WarningClass <==> 50.0 <= score < 75.0
    ensures c == SuccessClass <==> score < 50.0
  {
    if score >= 75.0 then CriticalClass else if score >= 50.0 then WarningClass else SuccessClass
  }

  /** `riskHex`. */
  function RiskHex(score: real): string {
    if score >= 75.0 then "#ef4444" else if score >= 50.0 then "#f59e0b" else "#22c55e"
  }

  /** The colour of each class. */
  function HexOf(c: ColorClass): string {
    match c
    case CriticalClass => "#ef4444"
    case WarningClass => "#f59e0b"
    case SuccessClass => "#22c55e"
  }

  /** The two helpers share their cut-offs: the hex is the colour of the class, and tells the class apart. */
  lemma HexFollowsColor(a: real, b: real)
    ensures RiskHex(a) == HexOf(RiskColor(a))
    ensures RiskHex(a) == RiskHex(b) <==> RiskColor(a) == RiskColor(b)
  {
  }

  /** `toDisplayScore`: `Math.round(raw * 100)`, the integer nearest to the percentage. */
  function ToDisplayScore(raw: real): (n: int)
    ensures raw * 100.0 - 0.5 < n as real <= raw * 100.0 + 0.5
    ensures 0.0 <= raw <= 1.0 ==> 0 <= n <= 100
  {
    JsRound(raw * 100.0)
  }

  // ---------------------------------------------------------------------
  // toTitle: `s.replace(/_/g, ' ').replace(/\b\w/g, c => c.toUpperCase())`

  /** A character `\w` matches: an ASCII letter, digit or underscore. */
  predicate IsWordChar(c: char) {
    'a' <= c <= 'z' || 'A' <= c <= 'Z' || '0' <= c <= '9' || c == '_'
  }

  /** `\b\w` matches at `i`: a word character with no word character before it. */
  predicate StartsWord(s: string, i: nat)
    requires i < |s|
  {
    IsWordChar(s[i]) && (i == 0 || !IsWordChar(s[i - 1]))
  }

  /** Every underscore becomes a space. */
  function Spaced(s: string): (r: string)
    ensures |r| == |s| && '_' !in r
    ensures forall i :: 0 <= i < |s| ==> r[i] == if s[i] == '_' then ' ' else s[i]
  {
    seq(|s|, i requires 0 <= i < |s| => if s[i] == '_' then ' ' else s[i])
  }

  /** The first character of every word is upper-cased; the matches are taken on the input. */
  function Capitalised(s: string): (r: string)
    ensures |r| == |s|
    ensures forall i :: 0 <= i < |s| ==> r[i] == if StartsWord(s, i) then UpperChar(s[i]) else s[i]
  {
    seq(|s|, i requires 0 <= i < |s| => if StartsWord(s, i) then UpperChar(s[i]) else s[i])
  }

  function ToTitle(s: string): (r: string)
    ensures |r| == |s|
    ensures '_' !in r
    ensures forall i :: 0 <= i < |s| && s[i] == '_' ==> r[i] == ' '
    ensures forall i :: 0 <= i < |s| && s[i] != '_' ==> r[i] == s[i] || r[i] == UpperChar(s[i])
    ensures forall i :: 0 <= i < |s| && s[i] != '_' && !StartsWord(Spaced(s), i) ==> r[i] == s[i]
    ensures forall i :: 0 <= i < |s| && StartsWord(Spaced(s), i) ==> r[i] == UpperChar(s[i])
    ensures forall i :: 0 <= i < |r| && StartsWord(r, i) ==> !('a' <= r[i] <= 'z')
  {
    var t := Spaced(s);
    var r := Capitalised(t);
    assert forall i :: 0 <= i < |r| ==> (IsWordChar(r[i]) <==> IsWordChar(t[i]));
    r
  }

  /** Titling a title changes nothing. */
  lemma ToTitleIdempotent(s: string)
    ensures ToTitle(ToTitle(s)) == ToTitle(s)
  {
    var t := Spaced(s);
    var r := ToTitle(s);
    assert r == Capitalised(t);
    assert Spaced(r) == r;
    assert forall i :: 0 <= i < |r| ==> (IsWordChar(r[i]) <==> IsWordChar(t[i]));
    assert forall i :: 0 <= i < |r| ==> (StartsWord(r, i) <==> StartsWord(t, i));
    assert Capitalised(r) == r;
  }

  lemma ToTitleExample()
    ensures ToTitle("critical_path_depth") == "Critical Path Depth"
  {
    SpacedExample();
    CapitalisedExample();
  }

  lemma SpacedExample()
    ensures Spaced("critical_path_depth") == "critical path depth"
  {
  }

  lemma CapitalisedExample()
    ensures Capitalised("critical path depth") == "Critical Path Depth"
  {
  }

  // ---------------------------------------------------------------------
  // The signal catalogue

  datatype SignalMeta = SignalMeta(key: string, title: string, unit: string, group: string)

  /** `SIGNAL_META`, in the order its entries are written. */
  const SIGNAL_META: seq<SignalMeta> := [
    SignalMeta(BLOCKED_TASK_RATIO, "Blocked Task Ratio", "", "dependency"),
    SignalMeta(CRITICAL_PATH_DEPTH, "Critical Path Depth", "", "dependency"),
    SignalMeta(DEPENDENCY_CENTRALITY_MAX, "Dependency Centrality", "", "dependency"),
    SignalMeta(OVERLOADED_DEV_RATIO, "Overloaded Dev Ratio", "", "workload"),
    SignalMeta(TASK_CONCENTRATION_INDEX, "Task Concentration", "", "workload"),
    SignalMeta(UNASSIGNED_TASK_RATIO, "Unassigned Task Ratio", "", "workload"),
    SignalMeta(MID_SPRINT_TASK_ADDITIONS, "Mid-Sprint Additions", " tasks", "scope"),
    SignalMeta(SCOPE_GROWTH_RATE, "Scope Growth Rate", "", "scope"),
    SignalMeta(OUT_OF_SCOPE_PR_COUNT, "Orphan PR Count", " PRs", "scope"),
    SignalMeta(OVERDUE_TASK_RATIO, "Overdue Task Ratio", "", "delay"),
    SignalMeta(STALE_TASK_RATIO, "Stale PR Ratio", "", "delay"),
    SignalMeta(AVG_PR_AGE_DAYS, "Avg PR Age", "d", "delay"),
    SignalMeta(SILENT_DEV_RATIO, "Silent Developer Count", "", "comms"),
    SignalMeta(UNANSWERED_THREAD_RATIO, "Unanswered Thread Ratio", "", "comms"),
    SignalMeta(ESCALATION_KEYWORD_COUNT, "Escalation Keywords", "", "comms")]

  /**
   * The catalogue lists the server's fifteen signals in the server's order,
   * in five runs of three, one run per agent group in the agents' order.
   */
  lemma SignalMetaShape()
    ensures |SIGNAL_META| == |SIGNAL_KEYS| == 15
    ensures forall i :: 0 <= i < |SIGNAL_META| ==> SIGNAL_META[i].key == SIGNAL_KEYS[i]
    ensures forall i :: 0 <= i < |SIGNAL_META| ==> SIGNAL_META[i].group == AGENT_KEYS[i / 3]
  {
    forall i | 0 <= i < |SIGNAL_META|
      ensures SIGNAL_META[i].key == SIGNAL_KEYS[i] && SIGNAL_META[i].group == AGENT_KEYS[i / 3]
    {
    }
  }

  // ---------------------------------------------------------------------
  // REST calls

  /** A JSON body: the value the call expects, or FastAPI's `{"detail": ...}`. */
  datatype Body<T> = Value(value: T) | Detail(detail: string)

  /** What `fetch` resolves to, or the error it rejects with. */
  datatype Reply<T> = NetworkError(message: string) | Response(status: int, body: Body<T>)

  /** `Response.ok`. */
  predicate IsOk(status: int) {
    200 <= status <= 299
  }

  /** `if (!r.ok) throw new Error(`${what} failed: ${r.status}`); return r.json();` */
  function Receive<T>(reply: Reply<T>, what: string): (r: Result<Body<T>, string>)
    ensures r.Success? <==> reply.Response? && IsOk(reply.status)
    ensures r.Success? ==> r.value == reply.body
    ensures reply.Response? && !IsOk(reply.status) ==> r.error == what + " failed: " + IntToString(reply.status)
    ensures reply.NetworkError? ==> r.error == reply.message
  {
    match reply
    case NetworkError(m) => Failure(m)
    case Response(status, body) =>
      if IsOk(status) then Success(body) else Failure(what + " failed: " + IntToString(status))
  }

  /** `getAnalysis`. */
  function GetAnalysis(reply: Reply<Analysis>): Result<Body<Analysis>, string> {
    Receive(reply, "Analysis fetch")
  }

  /** `simulate`. */
  function Simulate(reply: Reply<SimulationResult>): Result<Body<SimulationResult>, string> {
    Receive(reply, "Simulation")
  }

  /** The server's answer as the client's `fetch` sees it: a body with 200, or the error's status and detail. */
  function Served<T>(r: Routes.Response<T>): Reply<T> {
    match r
    case Ok(b) => Response(200, Value(b))
    case HttpError(status, detail) => Response(status, Detail(detail))
  }

  /**
   * A `SimulationMutation` as the pages build it: the type plus one
   * parameter, sent as the JSON object `{type, [paramKey]: value}`.
   */
  datatype SimulationMutation = SimulationMutation(kind: string, paramKey: string, value: int)

  /** The parameter is the one the server reads for the type. */
  predicate KeyedForKind(m: SimulationMutation) {
    || (m.kind == "add_developers" && m.paramKey == "count")
    || (m.kind == "extend_deadline" && m.paramKey == "days")
    || (m.kind == "remove_scope" && m.paramKey == "task_count")
    || (m.kind == "close_prs" && m.paramKey == "pr_count")
  }

  /** The body as the server's request model reads it: fields not sent take their default 0. */
  function RequestOf(m: SimulationMutation): Routes.MutationRequest {
    Routes.MutationRequest(
      m.kind,
      if m.paramKey == "count" then m.value else 0,
      if m.paramKey == "days" then m.value else 0,
      if m.paramKey == "task_count" then m.value else 0,
      if m.paramKey == "pr_count" then m.value else 0)
  }

  /** The server rebuilds exactly the mutation the client sent: its type and its one parameter. */
  lemma RequestAsSent(m: SimulationMutation)
    requires KeyedForKind(m)
    ensures Routes.BuildMutation(RequestOf(m)) == Mutation(Some(m.kind), map[m.paramKey := m.value])
  {
    var req := RequestOf(m);
    assert Routes.ParamFor(req) == Some((m.paramKey, m.value));
  }

  /** The simulation a call yields when it succeeds with a simulation body; none when it throws. */
  function SimulationValue(r: Result<Body<SimulationResult>, string>): (v: Option<SimulationResult>)
    ensures v.Some? <==> r.Success? && r.value.Value?
    ensures v.Some? ==> r.value.value == v.value
  {
    if r.Success? && r.value.Value? then Some(r.value.value) else None
  }

  /**
   * Against this server a well-keyed simulation succeeds when the state
   * loads, with the engine's result for the mutation sent, and fails with
   * status 500 otherwise.
   */
  lemma SimulateAgainstServer(load: Option<ProjectData>, m: SimulationMutation, rank: map<string, nat>)
    requires load.Some? ==> SignalExtractor.Ranked(SignalExtractor.Adjacency(load.value.tasks), rank)
    requires KeyedForKind(m)
    ensures var r := Simulate(Served(Routes.SimulateRoute(load, RequestOf(m), rank)));
            && (load.Some? ==> SimulationValue(r) == Some(WhatIfEngine.Simulate(load.value, Mutation(Some(m.kind), map[m.paramKey := m.value]), rank)))
            && (load.None? ==> r == Failure("Simulation failed: 500"))
  {
    if load.Some? {
      RequestAsSent(m);
      OkReceived(WhatIfEngine.Simulate(load.value, Routes.BuildMutation(RequestOf(m)), rank), "Simulation");
    } else {
      FailedReceived<SimulationResult>("Simulation", Routes.LOAD_FAILED);
      assert "Simulation" + " failed: 500" == "Simulation failed: 500";
    }
  }

  /** A body the server sends with 200 is the value the client receives. */
  lemma OkReceived<T>(b: T, what: string)
    ensures Receive(Served(Routes.Ok(b)), what) == Success(Value(b))
  {
  }

  /** An internal server error reaches the client as the error text with status 500. */
  lemma FailedReceived<T>(what: string, detail: string)
    ensures Receive(Served<T>(Routes.HttpError(Routes.INTERNAL_SERVER_ERROR, detail)), what) == Failure(what + " failed: 500")
  {
    InternalErrorText();
    assert what + " failed: " + "500" == what + " failed: 500";
  }

  /** The status text of an internal server error. */
  lemma InternalErrorText()
    ensures IntToString(Routes.INTERNAL_SERVER_ERROR) == "500"
  {
    assert NatToString(5) == "5";
    assert NatToString(50) == "50";
  }

  /** Against this server, `getAnalysis` yields the analysis when the state loads and throws 500 otherwise. */
  lemma GetAnalysisAgainstServer(load: Option<ProjectData>, rank: map<string, nat>, calls: seq<LlmReply.LlmCall>,
                                 decode: LlmReply.Decoder, silent: seq<string>)
    requires load.Some? ==> SignalExtractor.Ranked(SignalExtractor.Adjacency(load.value.tasks), rank)
    requires |calls| == |AGENT_NAMES|
    ensures var r := GetAnalysis(Served(Routes.GetAnalysis(load, rank, calls, decode, silent)));
            && (load.Some? ==> r == Success(Value(RunFullAnalysis(load.value, rank, calls, decode, silent))))
            && (load.None? ==> r == Failure("Analysis fetch failed: 500"))
  {
    if load.Some? {
      AnalysisLoaded(load.value, rank, calls, decode, silent);
    } else {
      AnalysisNotLoaded(rank, calls, decode, silent);
    }
  }

  lemma AnalysisLoaded(data: ProjectData, rank: map<string, nat>, calls: seq<LlmReply.LlmCall>,
                       decode: LlmReply.Decoder, silent: seq<string>)
    requires SignalExtractor.Ranked(SignalExtractor.Adjacency(data.tasks), rank)
    requires |calls| == |AGENT_NAMES|
    ensures GetAnalysis(Served(Routes.GetAnalysis(Some(data), rank, calls, decode, silent)))
            == Success(Value(RunFullAnalysis(data, rank, calls, decode, silent)))
  {
    var a := RunFullAnalysis(data, rank, calls, decode, silent);
    assert Routes.GetAnalysis(Some(data), rank, calls, decode, silent) == Routes.Ok(a);
    OkReceived(a, "Analysis fetch");
  }

  lemma AnalysisNotLoaded(rank: map<string, nat>, calls: seq<LlmReply.LlmCall>,
                          decode: LlmReply.Decoder, silent: seq<string>)
    requires |calls| == |AGENT_NAMES|
    ensures GetAnalysis(Served(Routes.GetAnalysis(None, rank, calls, decode, silent))) == Failure("Analysis fetch failed: 500")
  {
    assert Routes.GetAnalysis(None, rank, calls, decode, silent) == Routes.HttpError(Routes.INTERNAL_SERVER_ERROR, Routes.LOAD_FAILED);
    FailedReceived<Analysis>("Analysis fetch", Routes.LOAD_FAILED);
    assert "Analysis fetch" + " failed: 500" == "Analysis fetch failed: 500";
  }

  // ---------------------------------------------------------------------
  // The live socket

  /** `WebSocket.readyState`. */
  const CONNECTING := 0
  const OPEN := 1
  const CLOSING := 2
  const CLOSED := 3

  /** A browser socket, as far as the client drives it. */
  class Socket {
    var readyState: nat

    constructor ()
      ensures readyState == CONNECTING
    {
      readyState := CONNECTING;
    }

    /** `close()`: a connecting or open socket starts closing; otherwise nothing happens. */
    method Close()
      modifies this
      ensures readyState == if old(readyState) < CLOSING then CLOSING else old(readyState)
    {
      if readyState < CLOSING {
        readyState := CLOSING;
      }
    }
  }

  /** The payload a message carries in `data`, decoded. */
  datatype Payload = NoData | SignalsData(signals: SignalResult) | AgentData(result: AgentResult) | AnalysisData(analysis: Analysis)

  /** A parsed message: its `event` name and the fields the callbacks read. */
  datatype Frame = Frame(event: string, agent: Option<string>, data: Payload, message: Option<string>)

  /** One callback invocation, with the arguments it is given. */
  datatype Callback =
    | OnConnected
    | OnSignalsReady(data: Payload)
    | OnAgentStart(agent: Option<string>)
    | OnAgentComplete(agent: Option<string>, data: Payload)
    | OnRiskScoreReady(data: Payload)
    | OnComplete
    | OnError(message: Option<string>)

  const EVENT_NAMES: seq<string> :=
    ["connected", "signals_ready", "agent_start", "agent_complete", "risk_score_ready", "complete", "error"]

  /** The event name each callback answers to. */
  function EventOf(cb: Callback): string {
    match cb
    case OnConnected => "connected"
    case OnSignalsReady(_) => "signals_ready"
    case OnAgentStart(_) => "agent_start"
    case OnAgentComplete(_, _) => "agent_complete"
    case OnRiskScoreReady(_) => "risk_score_ready"
    case OnComplete => "complete"
    case OnError(_) => "error"
  }

  /** The callback is handed the frame's own fields. */
  predicate CarriesFrame(cb: Callback, f: Frame) {
    match cb
    case OnSignalsReady(d) => d == f.data
    case OnAgentStart(a) => a == f.agent
    case OnAgentComplete(a, d) => a == f.agent && d == f.data
    case OnRiskScoreReady(d) => d == f.data
    case OnError(m) => m == f.message
    case _ => true
  }

  /**
   * The `onmessage` handler: `None` is a message that is not valid JSON,
   * dropped; a known event name invokes exactly its own callback, any other
   * name none.
   */
  function Dispatch(msg: Option<Frame>): (cb: Option<Callback>)
    ensures msg.None? ==> cb.None?
    ensures msg.Some? ==> (cb.Some? <==> msg.value.event in EVENT_NAMES)
    ensures cb.Some? ==> EventOf(cb.value) == msg.value.event && CarriesFrame(cb.value, msg.value)
  {
    match msg
    case None => None
    case Some(f) =>
      if f.event == "connected" then Some(OnConnected)
      else if f.event == "signals_ready" then Some(OnSignalsReady(f.data))
      else if f.event == "agent_start" then Some(OnAgentStart(f.agent))
      else if f.event == "agent_complete" then Some(OnAgentComplete(f.agent, f.data))
      else if f.event == "risk_score_ready" then Some(OnRiskScoreReady(f.data))
      else if f.event == "complete" then Some(OnComplete)
      else if f.event == "error" then Some(OnError(f.message))
      else None
  }

  /** `onerror` reports a fixed text; `onclose` reports nothing. */
  const SOCKET_FAILED := OnError(Some("WebSocket connection failed"))

  /** The frame the client parses from each event the server sends. */
  function FrameOf(e: Websocket.Event): Frame {
    match e
    case Connected(m) => Frame("connected", None, NoData, Some(m))
    case SignalsReady(sr) => Frame("signals_ready", None, SignalsData(sr), None)
    case AgentStart(a) => Frame("agent_start", Some(a), NoData, None)
    case AgentComplete(a, r) => Frame("agent_complete", Some(a), AgentData(r), None)
    case RiskScoreReady(an) => Frame("risk_score_ready", None, AnalysisData(an), None)
    case Complete(m) => Frame("complete", None, NoData, Some(m))
    case Error(m) => Frame("error", None, NoData, Some(m))
  }

  /** The callback each server event should reach. */
  function CallbackOf(e: Websocket.Event): Callback {
    match e
    case Connected(_) => OnConnected
    case SignalsReady(sr) => OnSignalsReady(SignalsData(sr))
    case AgentStart(a) => OnAgentStart(Some(a))
    case AgentComplete(a, r) => OnAgentComplete(Some(a), AgentData(r))
    case RiskScoreReady(an) => OnRiskScoreReady(AnalysisData(an))
    case Complete(_) => OnComplete
    case Error(m) => OnError(Some(m))
  }

  /** Client and server agree on the event names: no event the server sends is dropped or misrouted. */
  lemma ServerEventsReachTheirCallbacks(e: Websocket.Event)
    ensures Dispatch(Some(FrameOf(e))) == Some(CallbackOf(e))
  {
  }

  /**
   * The module-level `_ws`. `sockets` holds every socket the module has
   * created; a valid transport has at most one of them still connecting or
   * open, and that one is `ws`.
   */
  class Transport {
    var ws: Socket?
    ghost var sockets: set<Socket>

    ghost predicate Valid()
      reads this, sockets
    {
      && (ws != null ==> ws in sockets)
      && forall s :: s in sockets && s.readyState < CLOSING ==> s == ws
    }

    /** The sockets still connecting or open. */
    ghost function Live(): set<Socket>
      reads this, sockets
    {
      set s | s in sockets && s.readyState < CLOSING
    }

    constructor ()
      ensures Valid() && ws == null && sockets == {}
    {
      ws := null;
      sockets := {};
    }

    /** `connectWebSocket`: closes a connecting or open `_ws`, then opens the new one. */
    method ConnectWebSocket() returns (s: Socket)
      requires Valid()
      modifies this, sockets
      ensures Valid() && fresh(s) && ws == s && s.readyState == CONNECTING
      ensures sockets == old(sockets) + {s}
      ensures Live() == {s}
      ensures old(ws) != null ==> old(ws).readyState == if old(ws.readyState) < CLOSING then CLOSING else old(ws.readyState)
      ensures forall x :: x in old(sockets) && x != old(ws) ==> x.readyState == old(x.readyState)
    {
      if ws != null && ws.readyState < CLOSING {
        ws.Close();
      }
      s := new Socket();
      ws := s;
      sockets := sockets + {s};
    }

    /** `closeWebSocket`. */
    method CloseWebSocket()
      requires Valid()
      modifies sockets
      ensures Valid() && Live() == {}
      ensures ws != null ==> ws.readyState == if old(ws.readyState) < CLOSING then CLOSING else old(ws.readyState)
      ensures forall x :: x in sockets && x != ws ==> x.readyState == old(x.readyState)
    {
      if ws != null {
        ws.Close();
      }
    }
  }
}
