/** The controller client: the requests it sends for each operation, how it
    reads the answers (rethrowing, or swallowing into `false`/`null`), and
    the connection state it keeps: the connected flag, the heartbeat
    interval, and the reconnect counter with its linear back-off.

    A transport outcome is a parameter: `Success` carries the part of the
    response the method reads (`success` or `data`), `Failure` the message
    of whatever `makeRequest` threw. */
module AmpsClientModel {
  import opened Wrappers
  import opened Text
  import opened AmpsTypes
  import MockAmps

  const DefaultTimeout := 10000
  const MaxReconnectAttempts := 5
  /** The reconnect delay grows by this many milliseconds per attempt. */
  const ReconnectStep := 5000
  const DefaultSearchLimit := 50
  const ClientCapabilities: seq<string> := ["session_control", "queue_management", "content_access"]

  datatype Config = Config(baseUrl: string, apiKey: string, timeout: Option<int>)

  // ----- requests -----------------------------------------------------------

  /** Every call the client makes. */
  datatype Operation =
    | ConnectOp | DisconnectOp | HeartbeatOp | StatusOp
    | CreateSessionOp(name: string, settings: Option<SettingsPatch>)
    | JoinSessionOp(sessionId: string) | LeaveSessionOp | CurrentSessionOp
    | ControlOp(action: string) | SeekOp(position: int) | VolumeOp(volume: int)
    | EnqueueOp(contentId: string, priority: int) | DequeueOp(queueItemId: string)
    | ReorderOp(queueItemIds: seq<string>)
    | SearchOp(query: string, limit: int) | ContentOp(contentId: string)

  /** The four reads go out as plain GETs without credentials. */
  predicate IsRead(op: Operation) {
    op.StatusOp? || op.CurrentSessionOp? || op.SearchOp? || op.ContentOp?
  }

  function Clamp(lo: int, hi: int, v: int): (r: int)
    requires lo <= hi
    ensures lo <= r <= hi
    ensures lo <= v <= hi ==> r == v
    ensures v < lo ==> r == lo
    ensures v > hi ==> r == hi
  {
    var m := if v < hi then v else hi;
    if m > lo then m else lo
  }

  function SearchEndpoint(query: string, limit: int): string {
    "/api/content/search?q=" + EncodeUriComponent(query) + "&limit=" + IntToString(limit)
  }

  /** The request each client method sends. */
  function RequestOf(op: Operation, apiKey: string): (r: Request)
    ensures r.bearer == if IsRead(op) then None else Some(apiKey)
    ensures r.httpMethod == if IsRead(op) then "GET" else if op.DequeueOp? then "DELETE" else "POST"
    ensures r.body.Some? <==> op.ConnectOp? || op.CreateSessionOp? || op.ControlOp? || op.SeekOp?
                              || op.VolumeOp? || op.EnqueueOp? || op.ReorderOp?
    ensures op.CreateSessionOp? ==>
      && r.body.value.name == op.name
      && r.body.value.settings == Some(AsPatch(MergeSettings(DefaultSettings, op.settings.GetOr(MockAmps.EmptyPatch))))
    ensures op.VolumeOp? ==> r.body.value.volume == Clamp(0, 100, op.volume)
    ensures op.EnqueueOp? ==> r.body.value.contentId == op.contentId && r.body.value.priority == op.priority
    ensures op.ControlOp? ==> r.body.value.action == op.action
    ensures op.SeekOp? ==> r.body.value.position == op.position
    ensures op.ConnectOp? ==> r.body.value.capabilities == ClientCapabilities
  {
    var key := Some(apiKey);
    match op
    case ConnectOp => Request("POST", "/api/connect", key, Some(EmptyBody.(capabilities := ClientCapabilities)))
    case DisconnectOp => Request("POST", "/api/disconnect", key, None)
    case HeartbeatOp => Request("POST", "/api/heartbeat", key, None)
    case StatusOp => Request("GET", "/api/status", None, None)
    case CreateSessionOp(name, settings) =>
      var merged := MergeSettings(DefaultSettings, settings.GetOr(MockAmps.EmptyPatch));
      Request("POST", "/api/sessions", key, Some(EmptyBody.(name := name, settings := Some(AsPatch(merged)))))
    case JoinSessionOp(id) => Request("POST", "/api/sessions/" + id + "/join", key, None)
    case LeaveSessionOp => Request("POST", "/api/sessions/leave", key, None)
    case CurrentSessionOp => Request("GET", "/api/sessions/current", None, None)
    case ControlOp(action) => Request("POST", "/api/sessions/control", key, Some(EmptyBody.(action := action)))
    case SeekOp(position) => Request("POST", "/api/sessions/seek", key, Some(EmptyBody.(position := position)))
    case VolumeOp(volume) =>
      Request("POST", "/api/sessions/volume", key, Some(EmptyBody.(volume := Clamp(0, 100, volume))))
    case EnqueueOp(contentId, priority) =>
      Request("POST", "/api/sessions/queue", key, Some(EmptyBody.(contentId := contentId, priority := priority)))
    case DequeueOp(id) => Request("DELETE", "/api/sessions/queue/" + id, key, None)
    case ReorderOp(ids) =>
      Request("POST", "/api/sessions/queue/reorder", key, Some(EmptyBody.(queueItemIds := ids)))
    case SearchOp(query, limit) => Request("GET", SearchEndpoint(query, limit), None, None)
    case ContentOp(id) => Request("GET", "/api/content/" + id, None, None)
  }

  // ----- the client against the simulator ---------------------------------

  /** The handler of the simulator each request reaches. Ids are assumed
      free of '/', and queue-item ids free of 'j' as well (the simulator's
      own ids, `queue-<digits>`, are). Reordering has no handler, and a
      search never reaches the search handler: its query string sends it to
      content lookup. */
  lemma {:induction false} ClientRequestsRoute(op: Operation, apiKey: string)
    requires op.JoinSessionOp? ==> '/' !in op.sessionId
    requires op.DequeueOp? ==> '/' !in op.queueItemId && 'j' !in op.queueItemId
    requires op.ContentOp? ==> '/' !in op.contentId && op.contentId != "search"
    ensures var r := RequestOf(op, apiKey); var route := MockAmps.RouteOf(r.endpoint, r.httpMethod);
      match op
      case ConnectOp => route == MockAmps.ConnectRoute
      case DisconnectOp => route == MockAmps.DisconnectRoute
      case HeartbeatOp => route == MockAmps.HeartbeatRoute
      case StatusOp => route == MockAmps.StatusRoute
      case CreateSessionOp(_, _) => route == MockAmps.CreateSessionRoute
      case JoinSessionOp(id) => route == MockAmps.JoinRoute(id)
      case LeaveSessionOp => route == MockAmps.LeaveRoute
      case CurrentSessionOp => route == MockAmps.CurrentSessionRoute
      case ControlOp(_) => route == MockAmps.ControlRoute
      case SeekOp(_) => route == MockAmps.SeekRoute
      case VolumeOp(_) => route == MockAmps.VolumeRoute
      case EnqueueOp(_, _) => route == MockAmps.EnqueueRoute
      case DequeueOp(id) => route == MockAmps.DequeueRoute(id)
      case ReorderOp(_) => route == MockAmps.UnknownRoute
      case SearchOp(query, limit) =>
        route == MockAmps.ContentRoute("search?q=" + EncodeUriComponent(query) + "&limit=" + IntToString(limit))
      case ContentOp(id) => route == MockAmps.ContentRoute(id)
  {
    match op
    case JoinSessionOp(id) => MockAmps.JoinPathRoutesToJoin(id, "POST");
    case DequeueOp(id) => MockAmps.DeletePathRoutesToDequeue(id);
    case ReorderOp(_) => MockAmps.ReorderIsUnknown("/api/sessions/queue/reorder");
    case SearchOp(query, limit) => SearchRoutesToContent(query, limit);
    case ContentOp(id) => MockAmps.ContentPathRoutesToLookup(id, "GET");
    case _ =>
  }

  /** The search request reaches content lookup, with the whole query
      string as the content id. */
  lemma SearchRoutesToContent(query: string, limit: int)
    ensures MockAmps.RouteOf(SearchEndpoint(query, limit), "GET")
         == MockAmps.ContentRoute("search?q=" + EncodeUriComponent(query) + "&limit=" + IntToString(limit))
  {
    var enc := EncodeUriComponent(query);
    var lim := IntToString(limit);
    SearchEndpointUnderContent(enc, lim);
    NoSlashInIntToString(limit);
    SearchTailHasNoSlash(enc, lim);
    MockAmps.ContentPathRoutesToLookup("search?q=" + enc + "&limit=" + lim, "GET");
  }

  /** The search path is the content prefix followed by a tail longer than
      the bare word "search". */
  lemma SearchEndpointUnderContent(enc: string, lim: string)
    ensures "/api/content/search?q=" + enc + "&limit=" + lim
         == "/api/content/" + ("search?q=" + enc + "&limit=" + lim)
    ensures "search?q=" + enc + "&limit=" + lim != "search"
  {
    var tail := "search?q=" + enc + "&limit=" + lim;
    assert |tail| > 6;
  }

  lemma SearchTailHasNoSlash(enc: string, lim: string)
    requires '/' !in enc && '/' !in lim
    ensures '/' !in "search?q=" + enc + "&limit=" + lim
  {
    var t := "search?q=" + enc + "&limit=" + lim;
    assert '/' !in "search?q=" && '/' !in "&limit=";
    forall c | c in t ensures c != '/' {
      assert c in "search?q=" || c in enc || c in "&limit=" || c in lim;
    }
  }

  lemma NoSlashInIntToString(i: int)
    ensures '/' !in IntToString(i)
  {
    var digits := NatToString(if i < 0 then -i else i);
    assert forall k :: 0 <= k < |digits| ==> digits[k] != '/';
    assert '/' !in digits;
    if i < 0 {
      assert IntToString(i) == "-" + digits;
    }
  }

  /** A session created through the client on the simulator has the name
      the caller gave (or 'New Session' for an empty one), and exactly the
      settings the client merged over the defaults. */
  lemma CreatedThroughClient(name: string, settings: Option<SettingsPatch>, apiKey: string, id: string, now: int)
    ensures var body := RequestOf(CreateSessionOp(name, settings), apiKey).body.value;
      var s := MockAmps.NewSession(id, body, now);
      && s.settings == MergeSettings(DefaultSettings, settings.GetOr(MockAmps.EmptyPatch))
      && s.name == (if name == "" then "New Session" else name)
  {
    MergeTwiceIsMergeOnce(settings.GetOr(MockAmps.EmptyPatch));
  }

  /** Whatever volume a caller asks for, the simulator stores a value in
      [0, 100], and the one asked for when it is in range. */
  lemma VolumeThroughClient(volume: int, apiKey: string, s: Session, now: int)
    ensures var body := RequestOf(VolumeOp(volume), apiKey).body.value;
      var v := MockAmps.VolumeSet(s, body.volume, now).settings.volume;
      0 <= v <= 100 && (0 <= volume <= 100 ==> v == volume)
  {
  }

  // ----- connection state ---------------------------------------------------

  /** The part of the client's state the reconnect logic moves. */
  datatype Link = Link(connected: bool, attempts: nat)

  /** The delay of the reconnect a heartbeat failure schedules, if any:
      `5000 × k` for the k-th attempt, nothing once the counter is at 5. */
  function ScheduledDelay(l: Link): (d: Option<nat>)
    ensures d.Some? <==> l.attempts < MaxReconnectAttempts
    ensures d.Some? ==> d.value == ReconnectStep * (l.attempts + 1)
  {
    if l.attempts < MaxReconnectAttempts then Some(ReconnectStep * (l.attempts + 1)) else None
  }

  /** `handleConnectionError`: disconnected, and one more attempt counted
      while below the maximum. */
  function AfterHeartbeatFailure(l: Link): (r: Link)
    ensures !r.connected
    ensures l.attempts < MaxReconnectAttempts ==> r.attempts == l.attempts + 1
    ensures l.attempts >= MaxReconnectAttempts ==> r.attempts == l.attempts
  {
    Link(false, if l.attempts < MaxReconnectAttempts then l.attempts + 1 else l.attempts)
  }

  datatype LinkEvent =
    | HeartbeatFailed
    | ReconnectFired(ok: bool)
    | ConnectCalled(ok: bool)
    | DisconnectCalled(ok: bool)

  /** A reconnect is a `connect()`; only its success resets the counter. A
      direct `connect()` leaves the counter alone, and a failed disconnect
      request leaves the flag alone. */
  function Step(l: Link, e: LinkEvent): (r: Link)
    ensures e.ReconnectFired? && e.ok ==> r == Link(true, 0)
    ensures e.ReconnectFired? && !e.ok ==> r == Link(false, l.attempts)
    ensures e.ConnectCalled? ==> r == Link(e.ok, l.attempts)
    ensures e.DisconnectCalled? ==> r == Link(l.connected && !e.ok, l.attempts)
    ensures e == HeartbeatFailed ==> r == AfterHeartbeatFailure(l)
  {
    match e
    case HeartbeatFailed => AfterHeartbeatFailure(l)
    case ReconnectFired(ok) => Link(ok, if ok then 0 else l.attempts)
    case ConnectCalled(ok) => Link(ok, l.attempts)
    case DisconnectCalled(ok) => Link(if ok then false else l.connected, l.attempts)
  }

  function Run(l: Link, es: seq<LinkEvent>): Link
    decreases es
  {
    if es == [] then l else Run(Step(l, es[0]), es[1..])
  }

  /** Whatever happens, the counter never exceeds `maxReconnectAttempts`. */
  lemma {:induction false} AttemptsStayBounded(l: Link, es: seq<LinkEvent>)
    requires l.attempts <= MaxReconnectAttempts
    ensures Run(l, es).attempts <= MaxReconnectAttempts
    decreases es
  {
    if es != [] {
      AttemptsStayBounded(Step(l, es[0]), es[1..]);
    }
  }

  /** The delays scheduled by `n` heartbeat failures in a row, with no
      reconnect succeeding in between. */
  function FailureDelays(l: Link, n: nat): (ds: seq<Option<nat>>)
    ensures |ds| == n
    decreases n
  {
    if n == 0 then [] else [ScheduledDelay(l)] + FailureDelays(AfterHeartbeatFailure(l), n - 1)
  }

  /** Linear back-off: from a counter at `a`, the i-th failure in a row
      waits `5000 × (a + i + 1)` ms, until five attempts have been counted;
      after that nothing is scheduled. */
  lemma {:induction false} LinearBackoff(l: Link, n: nat)
    requires l.attempts <= MaxReconnectAttempts
    ensures forall i :: 0 <= i < n ==>
      FailureDelays(l, n)[i] == if l.attempts + i < MaxReconnectAttempts
                                then Some(ReconnectStep * (l.attempts + i + 1)) else None
    decreases n
  {
    if n > 0 {
      var next := AfterHeartbeatFailure(l);
      LinearBackoff(next, n - 1);
      forall i | 1 <= i < n
        ensures FailureDelays(l, n)[i] == if l.attempts + i < MaxReconnectAttempts
                                          then Some(ReconnectStep * (l.attempts + i + 1)) else None
      {
        assert FailureDelays(l, n)[i] == FailureDelays(next, n - 1)[i - 1];
        if l.attempts < MaxReconnectAttempts {
          assert next.attempts + (i - 1) == l.attempts + i;
        }
      }
    }
  }

  /** From a fresh counter, failures in a row wait 5, 10, 15, 20 and 25
      seconds, and the sixth failure schedules nothing. */
  lemma FreshBackoff(l: Link)
    requires l.attempts == 0
    ensures FailureDelays(l, 6) == [Some(5000), Some(10000), Some(15000), Some(20000), Some(25000), None]
  {
    LinearBackoff(l, 6);
  }

  datatype ConnectionStatus = ConnectionStatus(connected: bool, reconnectAttempts: nat, maxReconnectAttempts: nat)

  // ----- the client ---------------------------------------------------------

  class AmpsClient {
    const baseUrl: string
    const apiKey: string
    const timeout: int
    var isConnected: bool
    var reconnectAttempts: nat
    /** Whether `heartbeatInterval` holds a handle, and how many heartbeat
        intervals run: connecting again overwrites the handle of a running
        one, which then can no longer be cleared. */
    var heartbeatHandle: bool
    var liveHeartbeats: nat
    /** Reconnect timeouts scheduled and not yet fired. */
    var pendingReconnects: nat

    function LinkOf(): Link
      reads this
    {
      Link(isConnected, reconnectAttempts)
    }

    predicate Valid()
      reads this
    {
      reconnectAttempts <= MaxReconnectAttempts && (heartbeatHandle ==> liveHeartbeats >= 1)
    }

    /** The timeout defaults to 10000 ms unless the configuration gives one. */
    constructor(config: Config)
      ensures Valid()
      ensures baseUrl == config.baseUrl && apiKey == config.apiKey
      ensures timeout == config.timeout.GetOr(DefaultTimeout)
      ensures !isConnected && reconnectAttempts == 0
      ensures !heartbeatHandle && liveHeartbeats == 0 && pendingReconnects == 0
    {
      baseUrl := config.baseUrl;
      apiKey := config.apiKey;
      timeout := config.timeout.GetOr(DefaultTimeout);
      isConnected := false;
      reconnectAttempts := 0;
      heartbeatHandle := false;
      liveHeartbeats := 0;
      pendingReconnects := 0;
    }

    /** `connected` */
    function Connected(): bool
      reads this
    {
      isConnected
    }

    /** True, with the flag set and a heartbeat started, exactly when the
        response reports success; every other outcome, thrown or not, is
        false with the flag cleared. It never throws. */
    method Connect(reply: Result<bool, string>) returns (sent: Request, ok: bool)
      requires Valid()
      modifies this
      ensures Valid()
      ensures sent == RequestOf(ConnectOp, apiKey)
      ensures ok <==> reply == Success(true)
      ensures LinkOf() == Step(old(LinkOf()), ConnectCalled(ok))
      ensures ok ==> heartbeatHandle && liveHeartbeats == old(liveHeartbeats) + 1
      ensures !ok ==> heartbeatHandle == old(heartbeatHandle) && liveHeartbeats == old(liveHeartbeats)
      ensures pendingReconnects == old(pendingReconnects)
    {
      sent := RequestOf(ConnectOp, apiKey);
      if reply == Success(true) {
        isConnected := true;
        heartbeatHandle := true;
        liveHeartbeats := liveHeartbeats + 1;
        ok := true;
      } else {
        isConnected := false;
        ok := false;
      }
    }

    /** Clears the heartbeat first; clears the flag only when the request
        succeeds, and swallows a failure. */
    method Disconnect(reply: Result<Unit, string>) returns (sent: Request)
      requires Valid()
      modifies this
      ensures Valid()
      ensures sent == RequestOf(DisconnectOp, apiKey)
      ensures LinkOf() == Step(old(LinkOf()), DisconnectCalled(reply.Success?))
      ensures !heartbeatHandle
      ensures liveHeartbeats == if old(heartbeatHandle) then old(liveHeartbeats) - 1 else old(liveHeartbeats)
      ensures pendingReconnects == old(pendingReconnects)
    {
      if heartbeatHandle {
        liveHeartbeats := liveHeartbeats - 1;
        heartbeatHandle := false;
      }
      sent := RequestOf(DisconnectOp, apiKey);
      if reply.Success? {
        isConnected := false;
      }
    }

    /** `handleConnectionError`: disconnected; below the maximum, one more
        attempt is counted and a reconnect is scheduled after
        `5000 × attempts` ms. */
    method HandleConnectionError() returns (scheduled: Option<nat>)
      requires Valid()
      modifies this
      ensures Valid()
      ensures scheduled == ScheduledDelay(old(LinkOf()))
      ensures LinkOf() == Step(old(LinkOf()), HeartbeatFailed)
      ensures pendingReconnects == old(pendingReconnects) + (if scheduled.Some? then 1 else 0)
      ensures heartbeatHandle == old(heartbeatHandle) && liveHeartbeats == old(liveHeartbeats)
    {
      isConnected := false;
      if reconnectAttempts < MaxReconnectAttempts {
        reconnectAttempts := reconnectAttempts + 1;
        pendingReconnects := pendingReconnects + 1;
        scheduled := Some(ReconnectStep * reconnectAttempts);
      } else {
        scheduled := None;
      }
    }

    /** A running heartbeat interval fires: a failed heartbeat request is a
        connection error. */
    method HeartbeatFires(reply: Result<Unit, string>) returns (sent: Request, scheduled: Option<nat>)
      requires Valid() && liveHeartbeats > 0
      modifies this
      ensures Valid()
      ensures sent == RequestOf(HeartbeatOp, apiKey)
      ensures reply.Success? ==> scheduled == None && LinkOf() == old(LinkOf()) && pendingReconnects == old(pendingReconnects)
      ensures reply.Failure? ==> scheduled == ScheduledDelay(old(LinkOf())) && LinkOf() == Step(old(LinkOf()), HeartbeatFailed)
      ensures heartbeatHandle == old(heartbeatHandle) && liveHeartbeats == old(liveHeartbeats)
    {
      sent := RequestOf(HeartbeatOp, apiKey);
      scheduled := None;
      if reply.Failure? {
        scheduled := HandleConnectionError();
      }
    }

    /** A scheduled reconnect fires: it connects, and a success resets the
        counter. */
    method ReconnectFires(reply: Result<bool, string>) returns (sent: Request, ok: bool)
      requires Valid() && pendingReconnects > 0
      modifies this
      ensures Valid()
      ensures sent == RequestOf(ConnectOp, apiKey)
      ensures ok <==> reply == Success(true)
      ensures LinkOf() == Step(old(LinkOf()), ReconnectFired(ok))
      ensures pendingReconnects == old(pendingReconnects) - 1
    {
      pendingReconnects := pendingReconnects - 1;
      sent, ok := Connect(reply);
      if ok {
        reconnectAttempts := 0;
      }
    }

    method GetConnectionStatus() returns (s: ConnectionStatus)
      ensures s == ConnectionStatus(isConnected, reconnectAttempts, MaxReconnectAttempts)
    {
      s := ConnectionStatus(isConnected, reconnectAttempts, MaxReconnectAttempts);
    }

    /** `getSystemStatus` and the methods below send their request and
        return the response data, rethrowing any failure. */
    method GetSystemStatus(reply: Result<SystemStatus, string>) returns (sent: Request, r: Result<SystemStatus, string>)
      ensures sent == RequestOf(StatusOp, apiKey) && r == reply
    {
      sent := RequestOf(StatusOp, apiKey);
      r := reply;
    }

    method CreateSession(name: string, settings: Option<SettingsPatch>, reply: Result<Session, string>)
      returns (sent: Request, r: Result<Session, string>)
      ensures sent == RequestOf(CreateSessionOp(name, settings), apiKey) && r == reply
    {
      sent := RequestOf(CreateSessionOp(name, settings), apiKey);
      r := reply;
    }

    method JoinSession(sessionId: string, reply: Result<Session, string>) returns (sent: Request, r: Result<Session, string>)
      ensures sent == RequestOf(JoinSessionOp(sessionId), apiKey) && r == reply
    {
      sent := RequestOf(JoinSessionOp(sessionId), apiKey);
      r := reply;
    }

    method LeaveSession(reply: Result<Unit, string>) returns (sent: Request, r: Result<Unit, string>)
      ensures sent == RequestOf(LeaveSessionOp, apiKey) && r == reply
    {
      sent := RequestOf(LeaveSessionOp, apiKey);
      r := reply;
    }

    /** The one read that swallows a failure: it answers `null`. */
    method GetCurrentSession(reply: Result<Option<Session>, string>) returns (sent: Request, r: Option<Session>)
      ensures sent == RequestOf(CurrentSessionOp, apiKey)
      ensures reply.Failure? ==> r == None
      ensures reply.Success? ==> r == reply.value
    {
      sent := RequestOf(CurrentSessionOp, apiKey);
      r := if reply.Success? then reply.value else None;
    }

    method ControlPlayback(action: string, reply: Result<Unit, string>) returns (sent: Request, r: Result<Unit, string>)
      ensures sent == RequestOf(ControlOp(action), apiKey) && r == reply
    {
      sent := RequestOf(ControlOp(action), apiKey);
      r := reply;
    }

    method SeekTo(position: int, reply: Result<Unit, string>) returns (sent: Request, r: Result<Unit, string>)
      ensures sent == RequestOf(SeekOp(position), apiKey) && r == reply
    {
      sent := RequestOf(SeekOp(position), apiKey);
      r := reply;
    }

    /** Sends `max(0, min(100, volume))`. */
    method SetVolume(volume: int, reply: Result<Unit, string>) returns (sent: Request, r: Result<Unit, string>)
      ensures sent == RequestOf(VolumeOp(volume), apiKey) && r == reply
      ensures sent.body.Some? && 0 <= sent.body.value.volume <= 100
    {
      sent := RequestOf(VolumeOp(volume), apiKey);
      r := reply;
    }

    method AddToQueue(contentId: string, priority: int, reply: Result<QueueItem, string>)
      returns (sent: Request, r: Result<QueueItem, string>)
      ensures sent == RequestOf(EnqueueOp(contentId, priority), apiKey) && r == reply
    {
      sent := RequestOf(EnqueueOp(contentId, priority), apiKey);
      r := reply;
    }

    method RemoveFromQueue(queueItemId: string, reply: Result<Unit, string>) returns (sent: Request, r: Result<Unit, string>)
      ensures sent == RequestOf(DequeueOp(queueItemId), apiKey) && r == reply
    {
      sent := RequestOf(DequeueOp(queueItemId), apiKey);
      r := reply;
    }

    method ReorderQueue(queueItemIds: seq<string>, reply: Result<Unit, string>) returns (sent: Request, r: Result<Unit, string>)
      ensures sent == RequestOf(ReorderOp(queueItemIds), apiKey) && r == reply
    {
      sent := RequestOf(ReorderOp(queueItemIds), apiKey);
      r := reply;
    }

    method SearchContent(query: string, limit: int, reply: Result<seq<Content>, string>)
      returns (sent: Request, r: Result<seq<Content>, string>)
      ensures sent == RequestOf(SearchOp(query, limit), apiKey) && r == reply
    {
      sent := RequestOf(SearchOp(query, limit), apiKey);
      r := reply;
    }

    method GetContent(contentId: string, reply: Result<Content, string>) returns (sent: Request, r: Result<Content, string>)
      ensures sent == RequestOf(ContentOp(contentId), apiKey) && r == reply
    {
      sent := RequestOf(ContentOp(contentId), apiKey);
      r := reply;
    }
  }
}
