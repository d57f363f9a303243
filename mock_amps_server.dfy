/** The in-memory playback controller simulator: a table of sessions, the
    current session, the system status, and a request router that sends an
    endpoint path to one handler. Every handler changes the table in place;
    the one-second track progression and the 30-second heartbeat are
    explicit methods here rather than timers.

    The pure functions on `Session` say what each handler does to the one
    session it touches; the methods of `MockAmpsServer` say that the table
    changes at that session's key and nowhere else. */
module MockAmps {
  import opened Wrappers
  import opened Seqs
  import opened Text
  import opened AmpsTypes

  // ----- error messages -----------------------------------------------------

  const NoActiveSession := "No active session"
  const SessionNotFound := "Session not found"
  const NoActiveTrack := "No active track"
  /** Reading a field of an absent request body throws a TypeError. */
  const MissingBody := "TypeError: Cannot read properties of undefined"
  /** `GET /api/sessions` calls a handler the class does not define. */
  const MissingListHandler := "TypeError: this.handleGetSessions is not a function"

  function UnknownEndpoint(endpoint: string): string {
    "Unknown endpoint: " + endpoint
  }

  // ----- routing ------------------------------------------------------------

  datatype Route =
    | ConnectRoute | DisconnectRoute | StatusRoute | HeartbeatRoute
    | CreateSessionRoute | ListSessionsRoute | CurrentSessionRoute | LeaveRoute
    | ControlRoute | SeekRoute | VolumeRoute | EnqueueRoute | QueueRoute | SearchRoute
    | JoinRoute(sessionId: string)
    | DequeueRoute(queueItemId: string)
    | ContentRoute(contentId: string)
    | UnknownRoute

  predicate NoSlash(segs: seq<string>) {
    forall i :: 0 <= i < |segs| ==> '/' !in segs[i]
  }

  /** The path prefix made of the given segments, each followed by '/'. */
  function SlashTerminated(segs: seq<string>): string {
    if segs == [] then "" else segs[0] + "/" + SlashTerminated(segs[1..])
  }

  /** Splitting a slash-free piece followed by '/' yields that piece and
      then the pieces of what follows. */
  lemma SplitPieceThenTail(x: string, t: string)
    requires '/' !in x
    ensures Split(x + "/" + t, '/') == [x] + Split(t, '/')
  {
    assert x + "/" + t == x + ['/'] + t;
    SplitAtSeparator(x, '/', t);
    SplitWithoutSeparator(x, '/');
  }

  lemma {:induction false} SplitSlashTerminated(segs: seq<string>, rest: string)
    requires NoSlash(segs)
    ensures Split(SlashTerminated(segs) + rest, '/') == segs + Split(rest, '/')
  {
    if segs == [] {
      assert SlashTerminated(segs) + rest == rest;
    } else {
      var more := SlashTerminated(segs[1..]);
      SlashTerminatedFirst(segs, rest);
      SplitPieceThenTail(segs[0], more + rest);
      NoSlashTail(segs);
      SplitSlashTerminated(segs[1..], rest);
      ConsTail(segs, Split(rest, '/'));
    }
  }

  lemma ConsTail<T>(s: seq<T>, t: seq<T>)
    requires s != []
    ensures [s[0]] + (s[1..] + t) == s + t
  {
    assert [s[0]] + s[1..] == s;
  }

  /** One step of `SlashTerminated`, with what follows appended. */
  lemma SlashTerminatedFirst(segs: seq<string>, rest: string)
    requires NoSlash(segs) && segs != []
    ensures '/' !in segs[0]
    ensures SlashTerminated(segs) + rest == segs[0] + "/" + (SlashTerminated(segs[1..]) + rest)
  {
  }

  lemma NoSlashTail(segs: seq<string>)
    requires NoSlash(segs) && segs != []
    ensures NoSlash(segs[1..])
  {
    forall i | 0 <= i < |segs[1..]| ensures '/' !in segs[1..][i] {
      assert segs[1..][i] == segs[i + 1];
    }
  }

  lemma {:induction false} SlashTerminatedAppend(segs: seq<string>, x: string)
    ensures SlashTerminated(segs + [x]) == SlashTerminated(segs) + x + "/"
  {
    if segs == [] {
      assert segs + [x] == [x];
      assert [x][1..] == [];
    } else {
      assert (segs + [x])[0] == segs[0];
      assert (segs + [x])[1..] == segs[1..] + [x];
      SlashTerminatedAppend(segs[1..], x);
    }
  }

  /** `endpoint.split('/')[|segs|]` for a path that starts with the given
      segments: the piece of the path that follows them, up to the next '/'. */
  function SegmentAfter(endpoint: string, segs: seq<string>): (r: string)
    requires NoSlash(segs) && StartsWith(endpoint, SlashTerminated(segs))
    ensures r == Split(endpoint[|SlashTerminated(segs)|..], '/')[0]
  {
    var p := SlashTerminated(segs);
    assert endpoint == p + endpoint[|p|..];
    SplitSlashTerminated(segs, endpoint[|p|..]);
    Split(endpoint, '/')[|segs|]
  }

  const SessionsSegs: seq<string> := ["", "api", "sessions"]
  const QueueSegs: seq<string> := ["", "api", "sessions", "queue"]
  const ContentSegs: seq<string> := ["", "api", "content"]

  /** The spelling of a path prefix of the form `/a/b/`. */
  lemma SpellRootedPair(x: string, y: string)
    requires '/' !in x && '/' !in y
    ensures NoSlash(["", x, y]) && SlashTerminated(["", x, y]) == "/" + x + "/" + y + "/"
  {
    assert ["", x, y][1..] == [x, y];
    assert [x, y][1..] == [y];
    assert [y][1..] == [];
    assert SlashTerminated([y]) == y + "/";
    assert SlashTerminated([x, y]) == x + "/" + (y + "/");
    assert SlashTerminated(["", x, y]) == "" + "/" + (x + "/" + (y + "/"));
    assert "" + "/" + (x + "/" + (y + "/")) == "/" + x + "/" + y + "/";
  }

  lemma SessionsSpelling()
    ensures NoSlash(SessionsSegs) && SlashTerminated(SessionsSegs) == "/api/sessions/"
  {
    SpellRootedPair("api", "sessions");
  }

  lemma QueueSpelling()
    ensures NoSlash(QueueSegs) && SlashTerminated(QueueSegs) == "/api/sessions/queue/"
  {
    SessionsSpelling();
    SlashTerminatedAppend(SessionsSegs, "queue");
    assert SessionsSegs + ["queue"] == QueueSegs;
  }

  lemma ContentSpelling()
    ensures NoSlash(ContentSegs) && SlashTerminated(ContentSegs) == "/api/content/"
  {
    SpellRootedPair("api", "content");
  }

  /** The paths the router's `switch` matches exactly. */
  const ExactEndpoints: seq<string> := [
    "/api/connect", "/api/disconnect", "/api/status", "/api/heartbeat",
    "/api/sessions", "/api/sessions/current", "/api/sessions/leave",
    "/api/sessions/control", "/api/sessions/seek", "/api/sessions/volume",
    "/api/sessions/queue", "/api/content/search"]

  /** The `switch` cases of `handleRequest`: one handler per exact path
      (the last one is the search path). None of them is a prefix rule's
      route. */
  function ExactRoute(endpoint: string, httpMethod: string): (r: Route)
    requires endpoint in ExactEndpoints
    ensures !r.JoinRoute? && !r.DequeueRoute? && !r.ContentRoute? && r != UnknownRoute
    ensures (r == CreateSessionRoute || r == ListSessionsRoute) <==> endpoint == "/api/sessions"
  {
    if endpoint == "/api/connect" then ConnectRoute
    else if endpoint == "/api/disconnect" then DisconnectRoute
    else if endpoint == "/api/status" then StatusRoute
    else if endpoint == "/api/heartbeat" then HeartbeatRoute
    else if endpoint == "/api/sessions" then
      (if httpMethod == "POST" then CreateSessionRoute else ListSessionsRoute)
    else if endpoint == "/api/sessions/current" then CurrentSessionRoute
    else if endpoint == "/api/sessions/leave" then LeaveRoute
    else if endpoint == "/api/sessions/control" then ControlRoute
    else if endpoint == "/api/sessions/seek" then SeekRoute
    else if endpoint == "/api/sessions/volume" then VolumeRoute
    else if endpoint == "/api/sessions/queue" then
      (if httpMethod == "POST" then EnqueueRoute else QueueRoute)
    else SearchRoute
  }

  /** `handleRequest`'s dispatch: the exact paths first, then the three
      prefix rules in order, and everything else is unknown. The HTTP method
      matters only for `/api/sessions`, `/api/sessions/queue` and the
      queue-item prefix. */
  function RouteOf(endpoint: string, httpMethod: string): (r: Route)
    ensures r.JoinRoute? ==> StartsWith(endpoint, "/api/sessions/") && Contains(endpoint, "/join")
    ensures r.DequeueRoute? ==> httpMethod == "DELETE" && StartsWith(endpoint, "/api/sessions/queue/")
    ensures r.ContentRoute? ==> StartsWith(endpoint, "/api/content/")
    ensures r == UnknownRoute <==>
      endpoint !in ExactEndpoints && !StartsWith(endpoint, "/api/content/")
      && !(StartsWith(endpoint, "/api/sessions/") && Contains(endpoint, "/join"))
      && !(StartsWith(endpoint, "/api/sessions/queue/") && httpMethod == "DELETE")
  {
    if endpoint in ExactEndpoints then ExactRoute(endpoint, httpMethod)
    else if StartsWith(endpoint, "/api/sessions/") && Contains(endpoint, "/join") then
      SessionsSpelling();
      JoinRoute(SegmentAfter(endpoint, SessionsSegs))
    else if StartsWith(endpoint, "/api/sessions/queue/") && httpMethod == "DELETE" then
      QueueSpelling();
      DequeueRoute(SegmentAfter(endpoint, QueueSegs))
    else if StartsWith(endpoint, "/api/content/") then
      ContentSpelling();
      ContentRoute(SegmentAfter(endpoint, ContentSegs))
    else UnknownRoute
  }

  /** None of the exact paths holds the letter 'j'. */
  lemma ExactEndpointsLackJ(e: string)
    requires e in ExactEndpoints
    ensures 'j' !in e
  {
  }

  lemma ExactEndpointsShort(e: string)
    requires e in ExactEndpoints
    ensures |e| <= 21
  {
  }

  /** Of the exact paths, only the search path lies under `/api/content/`,
      and none under `/api/sessions/queue/`. */
  lemma ExactEndpointsUnderPrefixes(e: string)
    requires e in ExactEndpoints
    ensures StartsWith(e, "/api/content/") ==> e == "/api/content/search"
    ensures !StartsWith(e, "/api/sessions/queue/")
  {
    assert StartsWith(e, "/api/content/") ==> e[5] == e[..13][5] == 'c';
    assert |e| >= 20 ==> e[14] != 'q';
  }

  lemma SegmentOfSlashFree(x: string, more: string)
    requires '/' !in x
    ensures Split(x + more, '/')[0] == x || (more != [] && more[0] != '/')
    ensures more == [] || more[0] == '/' ==> Split(x + more, '/')[0] == x
  {
    if more == [] {
      assert x + more == x;
      SplitWithoutSeparator(x, '/');
    } else if more[0] == '/' {
      assert x + more == x + ['/'] + more[1..];
      SplitAtSeparator(x, '/', more[1..]);
      SplitWithoutSeparator(x, '/');
    }
  }

  /** `/api/sessions/{id}/join` is routed to the join handler with `id`,
      taken from path segment 3, whatever the HTTP method. */
  lemma {:induction false} JoinPathRoutesToJoin(id: string, httpMethod: string)
    requires '/' !in id
    ensures RouteOf("/api/sessions/" + id + "/join", httpMethod) == JoinRoute(id)
  {
    var e := "/api/sessions/" + id + "/join";
    SessionsSpelling();
    ContainsSuffix("/api/sessions/" + id, "/join");
    assert 'j' in e by {
      assert e[|e| - 4] == 'j';
    }
    if e in ExactEndpoints {
      ExactEndpointsLackJ(e);
    }
    assert e[..14] == "/api/sessions/";
    assert e[14..] == id + "/join";
    SegmentOfSlashFree(id, "/join");
  }

  /** A path under `/api/sessions/queue/` whose tail has no 'j' is not an
      exact path, not a join path and not under `/api/content/`. */
  lemma {:induction false} QueuePathIsNoOtherRule(tail: string)
    requires 'j' !in tail
    ensures var e := "/api/sessions/queue/" + tail;
      && e !in ExactEndpoints && !Contains(e, "/join") && !StartsWith(e, "/api/content/")
      && StartsWith(e, "/api/sessions/queue/") && e[20..] == tail
  {
    var e := "/api/sessions/queue/" + tail;
    assert 'j' !in e by {
      assert 'j' !in "/api/sessions/queue/";
      forall c | c in e ensures c != 'j' {
        assert c in "/api/sessions/queue/" || c in tail;
      }
    }
    NotContainsWithoutChar(e, "/join", 1);
    assert e[..20] == "/api/sessions/queue/";
    if e in ExactEndpoints {
      ExactEndpointsUnderPrefixes(e);
    }
    assert e[5] == 's';
  }

  /** `DELETE /api/sessions/queue/{id}` is routed to queue removal with `id`,
      taken from path segment 4, when `id` has no '/' and no 'j' (so the path
      cannot be read as a join path). */
  lemma {:induction false} DeletePathRoutesToDequeue(id: string)
    requires '/' !in id && 'j' !in id
    ensures RouteOf("/api/sessions/queue/" + id, "DELETE") == DequeueRoute(id)
  {
    QueueSpelling();
    QueuePathIsNoOtherRule(id);
    SegmentOfSlashFree(id, "");
    assert id + "" == id;
  }

  /** Any path under `/api/content/` that is not exactly the search path is
      routed to content lookup with segment 3, query string and all: the
      search request the client sends carries `?q=…&limit=…`, so it never
      reaches the search handler. */
  lemma {:induction false} ContentPathRoutesToLookup(tail: string, httpMethod: string)
    requires '/' !in tail && tail != "search"
    ensures RouteOf("/api/content/" + tail, httpMethod) == ContentRoute(tail)
  {
    var e := "/api/content/" + tail;
    assert e[..13] == "/api/content/";
    assert e[13..] == tail;
    assert e[5] == 'c';
    assert !StartsWith(e, "/api/sessions/");
    assert e !in ExactEndpoints by {
      if e in ExactEndpoints {
        ExactEndpointsUnderPrefixes(e);
      }
    }
    RouteOfUnderContent(e, httpMethod);
    SegmentOfSlashFree(tail, "");
    assert tail + "" == tail;
  }

  lemma RouteOfUnderContent(e: string, httpMethod: string)
    requires e !in ExactEndpoints && !StartsWith(e, "/api/sessions/") && StartsWith(e, "/api/content/")
    ensures NoSlash(ContentSegs) && SlashTerminated(ContentSegs) == "/api/content/"
    ensures RouteOf(e, httpMethod) == ContentRoute(SegmentAfter(e, ContentSegs))
  {
    ContentSpelling();
  }

  /** The reorder request the client sends has no handler: it fails as an
      unknown endpoint. */
  lemma ReorderIsUnknown(e: string)
    requires e == "/api/sessions/queue/reorder"
    ensures RouteOf(e, "POST") == UnknownRoute
  {
    QueuePathIsNoOtherRule("reorder");
    assert e == "/api/sessions/queue/" + "reorder";
  }

  // ----- session transitions ------------------------------------------------

  /** The track a queue entry becomes when it is loaded: at position 0, with
      the entry's own id (not its content id). */
  function TrackFrom(item: QueueItem): (t: Track)
    ensures t.position == 0 && t.duration == item.duration && t.id == item.id
  {
    Track(item.id, item.title, item.artist, item.duration, 0)
  }

  /** The shape every session in the table keeps: a non-negative
      participant count, the loaded track's position within its duration,
      and no queue entry of negative duration. */
  predicate SessionOk(s: Session) {
    && s.participants >= 0
    && (s.currentTrack.Some? ==> 0 <= s.currentTrack.value.position <= s.currentTrack.value.duration)
    && (forall i :: 0 <= i < |s.queue| ==> s.queue[i].duration >= 0)
  }

  const EmptyPatch: SettingsPatch := SettingsPatch(None, None, None)

  /** The session `handleCreateSession` stores: active, one participant, an
      empty queue and no track; named `body.name || 'New Session'`; settings
      the defaults overridden by whatever `body.settings` carries. */
  function NewSession(id: string, body: Body, now: int): (s: Session)
    ensures s.id == id && s.status == Active && s.participants == 1
    ensures s.queue == [] && s.currentTrack == None
    ensures s.name == (if body.name == "" then "New Session" else body.name)
    ensures s.settings == MergeSettings(DefaultSettings, body.settings.GetOr(EmptyPatch))
    ensures body.settings.None? ==> s.settings == DefaultSettings
    ensures SessionOk(s)
  {
    Session(id, if body.name == "" then "New Session" else body.name, Active, None, 1, [],
            MergeSettings(DefaultSettings, body.settings.GetOr(EmptyPatch)), now, now)
  }

  /** One more participant; nothing else but the update time changes. */
  function Joined(s: Session, now: int): (r: Session)
    ensures r.participants == s.participants + 1
    ensures r.(participants := s.participants, updatedAt := s.updatedAt) == s
  {
    s.(participants := s.participants + 1, updatedAt := now)
  }

  /** One participant fewer, never below zero. */
  function Left(s: Session, now: int): (r: Session)
    ensures r.participants >= 0
    ensures s.participants >= 1 ==> r.participants == s.participants - 1
    ensures s.participants <= 1 ==> r.participants == 0
    ensures r.(participants := s.participants, updatedAt := s.updatedAt) == s
  {
    s.(participants := if s.participants - 1 > 0 then s.participants - 1 else 0, updatedAt := now)
  }

  /** Joining and then leaving gives back the participant count. */
  lemma JoinThenLeave(s: Session, now: int, later: int)
    requires s.participants >= 0
    ensures Left(Joined(s, now), later) == s.(updatedAt := later)
  {
  }

  const PlaybackActions: set<string> := {"play", "pause", "stop", "next", "previous"}

  /** `handleControlPlayback`'s `switch (body.action)` on one session. */
  function Controlled(s: Session, action: string, now: int): (r: Session)
    ensures r.id == s.id && r.name == s.name && r.participants == s.participants
    ensures r.settings == s.settings && r.createdAt == s.createdAt && r.updatedAt == now
    ensures action == "play" ==> r.status == Active && r.queue == s.queue
    ensures action == "play" && s.currentTrack.None? && s.queue != [] ==> r.currentTrack == Some(TrackFrom(s.queue[0]))
    ensures action == "play" && (s.currentTrack.Some? || s.queue == []) ==> r.currentTrack == s.currentTrack
    ensures action == "pause" ==> r == s.(status := Paused, updatedAt := now)
    ensures action == "stop" ==> r.status == Inactive && r.currentTrack == None && r.queue == s.queue
    ensures action == "next" ==> r.status == s.status
    ensures action == "next" && s.queue != [] ==> r.currentTrack == Some(TrackFrom(s.queue[0])) && r.queue == s.queue[1..]
    ensures action == "next" && s.queue == [] ==> r == s.(updatedAt := now)
    ensures action == "previous" ==> r.status == s.status && r.queue == s.queue
    ensures action == "previous" ==> r.currentTrack.Some? == s.currentTrack.Some?
    ensures action == "previous" && s.currentTrack.Some? ==> r.currentTrack.value == s.currentTrack.value.(position := 0)
    ensures action !in PlaybackActions ==> r == s.(updatedAt := now)
  {
    var s' := s.(updatedAt := now);
    if action == "play" then
      if s.currentTrack.None? && |s.queue| > 0 then s'.(status := Active, currentTrack := Some(TrackFrom(s.queue[0])))
      else s'.(status := Active)
    else if action == "pause" then s'.(status := Paused)
    else if action == "stop" then s'.(status := Inactive, currentTrack := None)
    else if action == "next" then
      if |s.queue| > 0 then s'.(currentTrack := Some(TrackFrom(s.queue[0])), queue := s.queue[1..])
      else s'
    else if action == "previous" then
      if s.currentTrack.Some? then s'.(currentTrack := Some(s.currentTrack.value.(position := 0))) else s'
    else s'
  }

  /** `next` consumes the queue head: the old queue is the entry now
      playing followed by the new queue. `play` loads the same entry but
      leaves it queued, so a later `next` plays it a second time. */
  lemma {:induction false} NextConsumesPlayKeeps(s: Session, now: int, later: int)
    requires s.queue != []
    ensures var n := Controlled(s, "next", now);
      n.currentTrack == Some(TrackFrom(s.queue[0])) && [s.queue[0]] + n.queue == s.queue
    ensures s.currentTrack.None? ==>
      var p := Controlled(s, "play", now);
      p.currentTrack == Some(TrackFrom(s.queue[0])) && p.queue == s.queue
      && Controlled(p, "next", later).currentTrack == p.currentTrack
  {
    assert [s.queue[0]] + s.queue[1..] == s.queue;
  }

  /** `Math.max(0, Math.min(position, duration))` as the new position. */
  function Seeked(s: Session, position: int, now: int): (r: Session)
    requires s.currentTrack.Some? && s.currentTrack.value.duration >= 0
    ensures r.currentTrack.Some?
    ensures var d := s.currentTrack.value.duration; var p := r.currentTrack.value.position;
      && 0 <= p <= d
      && (0 <= position <= d ==> p == position)
      && (position < 0 ==> p == 0)
      && (position > d ==> p == d)
    ensures r.(currentTrack := s.currentTrack, updatedAt := s.updatedAt) == s
    ensures r.currentTrack.value.(position := s.currentTrack.value.position) == s.currentTrack.value
  {
    var t := s.currentTrack.value;
    var p := if position < t.duration then position else t.duration;
    s.(currentTrack := Some(t.(position := if p > 0 then p else 0)), updatedAt := now)
  }

  /** `Math.max(0, Math.min(100, volume))` as the new volume. */
  function VolumeSet(s: Session, volume: int, now: int): (r: Session)
    ensures 0 <= r.settings.volume <= 100
    ensures 0 <= volume <= 100 ==> r.settings.volume == volume
    ensures volume < 0 ==> r.settings.volume == 0
    ensures volume > 100 ==> r.settings.volume == 100
    ensures r.(settings := s.settings, updatedAt := s.updatedAt) == s
    ensures r.settings.(volume := s.settings.volume) == s.settings
  {
    var v := if volume < 100 then volume else 100;
    s.(settings := s.settings.(volume := if v > 0 then v else 0), updatedAt := now)
  }

  /** The entry `handleAddToQueue` appends: its id and time from the clock,
      a title made from the content id, a three-minute duration. */
  function MockQueueItem(contentId: string, priority: int, now: nat): (item: QueueItem)
    ensures item.contentId == contentId && item.priority == priority && item.addedAt == now
    ensures item.duration == 180
  {
    QueueItem("queue-" + NatToString(now), contentId, "Track " + contentId, "Mock Artist", 180,
              "mock-user", now, priority)
  }

  function Enqueued(s: Session, item: QueueItem, now: int): (r: Session)
    ensures r.queue == s.queue + [item] && |r.queue| == |s.queue| + 1
    ensures r.(queue := s.queue, updatedAt := s.updatedAt) == s
  {
    s.(queue := s.queue + [item], updatedAt := now)
  }

  function HasId(id: string): QueueItem -> bool {
    (item: QueueItem) => item.id == id
  }

  /** `queue.filter(item => item.id !== queueItemId)` */
  function Dequeued(s: Session, queueItemId: string, now: int): (r: Session)
    ensures forall i :: 0 <= i < |r.queue| ==> r.queue[i].id != queueItemId && r.queue[i] in s.queue
    ensures forall i :: 0 <= i < |s.queue| && s.queue[i].id != queueItemId ==> s.queue[i] in r.queue
    ensures (forall i :: 0 <= i < |s.queue| ==> s.queue[i].id != queueItemId) ==> r.queue == s.queue
    ensures r.(queue := s.queue, updatedAt := s.updatedAt) == s
  {
    s.(queue := RemoveAll(s.queue, HasId(queueItemId)), updatedAt := now)
  }

  /** Removing the same id twice is removing it once. */
  lemma DequeueIdempotent(s: Session, queueItemId: string, now: int, later: int)
    ensures Dequeued(Dequeued(s, queueItemId, now), queueItemId, later) == Dequeued(s, queueItemId, later)
  {
    RemoveAllIdempotent(s.queue, HasId(queueItemId));
  }

  /** Adding an entry whose id is new and then removing that id gives back
      the queue as it was. */
  lemma {:induction false} EnqueueThenDequeue(s: Session, item: QueueItem, now: int, later: int)
    requires forall i :: 0 <= i < |s.queue| ==> s.queue[i].id != item.id
    ensures Dequeued(Enqueued(s, item, now), item.id, later).queue == s.queue
  {
    RemoveAllAppend(s.queue, [item], HasId(item.id));
    assert RemoveAll([item], HasId(item.id)) == [];
  }

  /** One second of track progression on the current session. */
  function Ticked(s: Session, now: int): (r: Session)
    ensures !(s.currentTrack.Some? && s.status == Active) ==> r == s
    ensures s.currentTrack.Some? && s.status == Active ==>
      && r.id == s.id && r.name == s.name && r.participants == s.participants
      && r.settings == s.settings && r.createdAt == s.createdAt && r.updatedAt == now
    ensures s.currentTrack.Some? && s.status == Active && s.currentTrack.value.position + 1 < s.currentTrack.value.duration ==>
      r.status == Active && r.queue == s.queue
      && r.currentTrack == Some(s.currentTrack.value.(position := s.currentTrack.value.position + 1))
    ensures s.currentTrack.Some? && s.status == Active && s.currentTrack.value.position + 1 >= s.currentTrack.value.duration ==>
      if s.queue != [] then
        r.status == Active && r.currentTrack == Some(TrackFrom(s.queue[0])) && r.queue == s.queue[1..]
      else
        r.status == Inactive && r.currentTrack == None && r.queue == []
  {
    if s.currentTrack.Some? && s.status == Active then
      var t := s.currentTrack.value.(position := s.currentTrack.value.position + 1);
      if t.position >= t.duration then
        if |s.queue| > 0 then s.(currentTrack := Some(TrackFrom(s.queue[0])), queue := s.queue[1..], updatedAt := now)
        else s.(currentTrack := None, status := Inactive, updatedAt := now)
      else s.(currentTrack := Some(t), updatedAt := now)
    else s
  }

  /** `n` seconds of progression with no request in between. */
  function Ticks(s: Session, n: nat, now: int): Session {
    if n == 0 then s else Ticked(Ticks(s, n - 1, now), now)
  }

  lemma {:induction false} TicksAdvance(s: Session, n: nat, now: int)
    requires s.status == Active && s.currentTrack.Some?
    requires s.currentTrack.value.position + n < s.currentTrack.value.duration
    ensures Ticks(s, n, now).status == Active && Ticks(s, n, now).queue == s.queue
    ensures Ticks(s, n, now).currentTrack == Some(s.currentTrack.value.(position := s.currentTrack.value.position + n))
  {
    if n > 0 {
      TicksAdvance(s, n - 1, now);
    }
  }

  /** A track playing at position `p` of duration `d > p` finishes after
      exactly `d - p` seconds: until then it advances one second per tick,
      and at that tick the queue head starts at position 0 (leaving the
      queue), or the session stops when the queue is empty. */
  lemma {:induction false} TrackFinishesOnTime(s: Session, now: int)
    requires s.status == Active && s.currentTrack.Some?
    requires 0 <= s.currentTrack.value.position < s.currentTrack.value.duration
    ensures var t := s.currentTrack.value; var k := t.duration - t.position;
      && Ticks(s, k - 1, now).currentTrack == Some(t.(position := t.duration - 1))
      && var r := Ticks(s, k, now);
         if s.queue != [] then
           r.status == Active && r.currentTrack == Some(TrackFrom(s.queue[0])) && r.queue == s.queue[1..]
         else
           r.status == Inactive && r.currentTrack == None
  {
    var t := s.currentTrack.value;
    var k := t.duration - t.position;
    TicksAdvance(s, k - 1, now);
  }

  lemma DequeuedKeepsSessionOk(s: Session, queueItemId: string, now: int)
    requires SessionOk(s)
    ensures SessionOk(Dequeued(s, queueItemId, now))
  {
    var d := Dequeued(s, queueItemId, now);
    forall i | 0 <= i < |d.queue| ensures d.queue[i].duration >= 0 {
      var j :| 0 <= j < |s.queue| && s.queue[j] == d.queue[i];
    }
  }

  lemma TickedKeepsSessionOk(s: Session, now: int)
    requires SessionOk(s)
    ensures SessionOk(Ticked(s, now))
  {
    if s.status == Active && s.currentTrack.Some? && s.queue != [] {
      assert s.queue[0] in s.queue;
      assert forall i :: 0 <= i < |s.queue[1..]| ==> s.queue[1..][i] == s.queue[i + 1];
    }
  }

  lemma ControlledKeepsSessionOk(s: Session, action: string, now: int)
    requires SessionOk(s)
    ensures SessionOk(Controlled(s, action, now))
  {
    if s.queue != [] {
      assert s.queue[0].duration >= 0;
      assert forall i :: 0 <= i < |s.queue[1..]| ==> s.queue[1..][i] == s.queue[i + 1];
    }
  }

  /** Every handler and the tick keep a session's shape. */
  lemma TransitionsKeepSessionOk(s: Session, action: string, position: int, volume: int,
                                 item: QueueItem, queueItemId: string, now: int)
    requires SessionOk(s)
    ensures SessionOk(Joined(s, now)) && SessionOk(Left(s, now))
    ensures SessionOk(Controlled(s, action, now))
    ensures s.currentTrack.Some? ==> SessionOk(Seeked(s, position, now))
    ensures SessionOk(VolumeSet(s, volume, now))
    ensures item.duration >= 0 ==> SessionOk(Enqueued(s, item, now))
    ensures SessionOk(Dequeued(s, queueItemId, now))
    ensures SessionOk(Ticked(s, now))
  {
    ControlledKeepsSessionOk(s, action, now);
    DequeuedKeepsSessionOk(s, queueItemId, now);
    TickedKeepsSessionOk(s, now);
  }

  // ----- catalogue ----------------------------------------------------------

  /** The i-th (from 0) of the canned search results. */
  function MockSearchResult(i: nat): (c: Content)
    ensures c.duration == 120 + 30 * i && c.bpm == Some(120 + 10 * i)
    ensures c.genre.Some? && c.genre.value in {"Pop", "Rock", "Electronic"}
    ensures c.year.Some? && 2020 <= c.year.value <= 2023
    ensures c.key.Some? && c.key.value in {"C", "D", "E", "F", "G"}
  {
    var n := NatToString(i + 1);
    Content("content-" + n, "Mock Track " + n, "Mock Artist " + n, 120 + i * 30,
            "/mock-audio/track-" + n + ".mp3",
            Some(["Pop", "Rock", "Electronic"][i % 3]), Some(2020 + i % 4), Some(120 + i * 10),
            Some(["C", "D", "E", "F", "G"][i % 5]))
  }

  function MockSearchResults(n: nat): (r: seq<Content>)
    ensures |r| == n && forall i :: 0 <= i < n ==> r[i] == MockSearchResult(i)
  {
    if n == 0 then [] else MockSearchResults(n - 1) + [MockSearchResult(n - 1)]
  }

  /** The search handler is reached only by the bare path, so the `limit`
      parameter is always its default of 50, cut to 10 results. */
  const SearchLimitDefault := 50
  const SearchLimitCap := 10

  function MockContent(contentId: string): (c: Content)
    ensures c.id == contentId && c.duration == 180
    ensures c.audioUrl == "/mock-audio/" + contentId + ".mp3"
  {
    Content(contentId, "Mock Track " + contentId, "Mock Artist", 180, "/mock-audio/" + contentId + ".mp3",
            Some("Pop"), Some(2023), Some(120), Some("C"))
  }

  // ----- the simulator ------------------------------------------------------

  /** What a handler resolves with. */
  datatype Payload =
    | Ack                                        // { success: true }
    | Welcome(clientId: string, capabilities: seq<string>)
    | StatusData(status: SystemStatus)
    | SessionData(session: Session)
    | NoSessionData                              // { data: null }
    | ItemData(item: QueueItem)
    | QueueData(queue: seq<QueueItem>)
    | ContentList(results: seq<Content>)
    | ContentData(content: Content)

  function InitialStatus(now: int): (st: SystemStatus)
    ensures !st.connected && st.activeSessions == 0 && st.totalSessions == 0
    ensures st.audio == Connected && st.network == Connected && st.storage == Available
  {
    SystemStatus(false, "1.0.0-mock", Connected, Connected, Available, 0, 0, now)
  }

  class MockAmpsServer {
    var sessions: map<string, Session>
    /** The current session's id; the empty string stands for `null`, since
        every reader of the field tests it for truthiness, for which the two
        agree. */
    var currentSessionId: string
    var status: SystemStatus
    var isConnected: bool
    /** Whether `heartbeatInterval` holds a handle. */
    var heartbeatHandle: bool
    /** How many heartbeat intervals are running: connecting again starts a
        new one and overwrites the handle of the old one, which then can no
        longer be cleared. */
    var liveHeartbeats: nat

    predicate Valid()
      reads this
    {
      && (forall k :: k in sessions ==> sessions[k].id == k && SessionOk(sessions[k]))
      && status.connected == isConnected
      && (heartbeatHandle ==> liveHeartbeats >= 1)
    }

    twostate predicate FlagsUnchanged()
      reads this
    {
      && isConnected == old(isConnected) && status == old(status)
      && heartbeatHandle == old(heartbeatHandle) && liveHeartbeats == old(liveHeartbeats)
    }

    constructor(now: int)
      ensures Valid()
      ensures sessions == map[] && currentSessionId == "" && status == InitialStatus(now)
      ensures !isConnected && !heartbeatHandle && liveHeartbeats == 0
    {
      sessions := map[];
      currentSessionId := "";
      status := InitialStatus(now);
      isConnected := false;
      heartbeatHandle := false;
      liveHeartbeats := 0;
    }

    /** Nothing in the simulator changes. */
    twostate predicate Unchanged()
      reads this
    {
      sessions == old(sessions) && currentSessionId == old(currentSessionId) && FlagsUnchanged()
    }

    /** What `handleConnect` leaves behind: connected, one more heartbeat
        running, the table and current session kept. */
    twostate predicate ConnectPost(body: Option<Body>, now: nat, new r: Result<Payload, string>)
      reads this
    {
      && isConnected && status == old(status).(connected := true)
      && heartbeatHandle && liveHeartbeats == old(liveHeartbeats) + 1
      && sessions == old(sessions) && currentSessionId == old(currentSessionId)
      && r == if body.Some? then Success(Welcome("mock-client-" + NatToString(now), body.value.capabilities))
              else Failure(MissingBody)
    }

    /** Marks the simulator connected and starts a heartbeat before it reads
        the body, so a request without one fails after the state changed. */
    method HandleConnect(body: Option<Body>, now: nat) returns (r: Result<Payload, string>)
      requires Valid()
      modifies this
      ensures Valid() && ConnectPost(body, now, r)
    {
      isConnected := true;
      status := status.(connected := true);
      heartbeatHandle := true;
      liveHeartbeats := liveHeartbeats + 1;
      if body.None? {
        return Failure(MissingBody);
      }
      r := Success(Welcome("mock-client-" + NatToString(now), body.value.capabilities));
    }

    twostate predicate DisconnectPost(new r: Result<Payload, string>)
      reads this
    {
      && !isConnected && status == old(status).(connected := false) && currentSessionId == ""
      && !heartbeatHandle
      && liveHeartbeats == (if old(heartbeatHandle) then old(liveHeartbeats) - 1 else old(liveHeartbeats))
      && sessions == old(sessions) && r == Success(Ack)
    }

    method HandleDisconnect() returns (r: Result<Payload, string>)
      requires Valid()
      modifies this
      ensures Valid() && DisconnectPost(r)
    {
      isConnected := false;
      status := status.(connected := false);
      currentSessionId := "";
      if heartbeatHandle {
        liveHeartbeats := liveHeartbeats - 1;
        heartbeatHandle := false;
      }
      r := Success(Ack);
    }

    /** Both session counts report the size of the table. */
    twostate predicate GetStatusPost(now: int, new r: Result<Payload, string>)
      reads this
    {
      && status == old(status).(lastHeartbeat := now, activeSessions := |sessions|, totalSessions := |sessions|)
      && r == Success(StatusData(status))
      && sessions == old(sessions) && currentSessionId == old(currentSessionId)
      && isConnected == old(isConnected) && heartbeatHandle == old(heartbeatHandle) && liveHeartbeats == old(liveHeartbeats)
    }

    method HandleGetStatus(now: int) returns (r: Result<Payload, string>)
      requires Valid()
      modifies this
      ensures Valid() && GetStatusPost(now, r)
    {
      status := status.(lastHeartbeat := now, activeSessions := |sessions|, totalSessions := |sessions|);
      r := Success(StatusData(status));
    }

    twostate predicate HeartbeatPost(now: int, new r: Result<Payload, string>)
      reads this
    {
      && status == old(status).(lastHeartbeat := now) && r == Success(Ack)
      && sessions == old(sessions) && currentSessionId == old(currentSessionId)
      && isConnected == old(isConnected) && heartbeatHandle == old(heartbeatHandle) && liveHeartbeats == old(liveHeartbeats)
    }

    method HandleHeartbeat(now: int) returns (r: Result<Payload, string>)
      requires Valid()
      modifies this
      ensures Valid() && HeartbeatPost(now, r)
    {
      status := status.(lastHeartbeat := now);
      r := Success(Ack);
    }

    /** A new session stored under `session-<now>` (replacing one created
        in the same millisecond) and made current; no body, no change. */
    twostate predicate CreateSessionPost(body: Option<Body>, now: nat, new r: Result<Payload, string>)
      reads this
    {
      && FlagsUnchanged()
      && (body.None? ==> r == Failure(MissingBody) && sessions == old(sessions) && currentSessionId == old(currentSessionId))
      && (body.Some? ==>
            var id := "session-" + NatToString(now);
            && sessions == old(sessions)[id := NewSession(id, body.value, now)]
            && currentSessionId == id
            && r == Success(SessionData(sessions[id])))
    }

    method HandleCreateSession(body: Option<Body>, now: nat) returns (r: Result<Payload, string>)
      requires Valid()
      modifies this
      ensures Valid() && CreateSessionPost(body, now, r)
    {
      if body.None? {
        return Failure(MissingBody);
      }
      var id := "session-" + NatToString(now);
      var session := NewSession(id, body.value, now);
      sessions := sessions[id := session];
      currentSessionId := id;
      r := Success(SessionData(session));
    }

    twostate predicate JoinSessionPost(sessionId: string, now: int, new r: Result<Payload, string>)
      reads this
    {
      && FlagsUnchanged()
      && (sessionId !in old(sessions) ==>
            r == Failure(SessionNotFound) && sessions == old(sessions) && currentSessionId == old(currentSessionId))
      && (sessionId in old(sessions) ==>
            && sessions == old(sessions)[sessionId := Joined(old(sessions)[sessionId], now)]
            && currentSessionId == sessionId
            && r == Success(SessionData(sessions[sessionId])))
    }

    method HandleJoinSession(sessionId: string, now: int) returns (r: Result<Payload, string>)
      requires Valid()
      modifies this
      ensures Valid() && JoinSessionPost(sessionId, now, r)
    {
      if sessionId !in sessions {
        return Failure(SessionNotFound);
      }
      var s := Joined(sessions[sessionId], now);
      TransitionsKeepSessionOk(sessions[sessionId], "", 0, 0, EmptyItem, "", now);
      sessions := sessions[sessionId := s];
      currentSessionId := sessionId;
      r := Success(SessionData(s));
    }

    /** The live current session, or `{ data: null }`. */
    predicate CurrentSessionReply(r: Result<Payload, string>)
      reads this
    {
      r == if currentSessionId != "" && currentSessionId in sessions
           then Success(SessionData(sessions[currentSessionId])) else Success(NoSessionData)
    }

    method HandleGetCurrentSession() returns (r: Result<Payload, string>)
      ensures CurrentSessionReply(r)
    {
      if currentSessionId == "" || currentSessionId !in sessions {
        return Success(NoSessionData);
      }
      r := Success(SessionData(sessions[currentSessionId]));
    }

    /** Always succeeds and always leaves no session current. */
    twostate predicate LeaveSessionPost(now: int, new r: Result<Payload, string>)
      reads this
    {
      && FlagsUnchanged()
      && r == Success(Ack) && currentSessionId == ""
      && sessions == if old(currentSessionId) != "" && old(currentSessionId) in old(sessions)
                     then old(sessions)[old(currentSessionId) := Left(old(sessions)[old(currentSessionId)], now)]
                     else old(sessions)
    }

    method HandleLeaveSession(now: int) returns (r: Result<Payload, string>)
      requires Valid()
      modifies this
      ensures Valid() && LeaveSessionPost(now, r)
    {
      if currentSessionId != "" {
        if currentSessionId in sessions {
          TransitionsKeepSessionOk(sessions[currentSessionId], "", 0, 0, EmptyItem, "", now);
          sessions := sessions[currentSessionId := Left(sessions[currentSessionId], now)];
        }
        currentSessionId := "";
      }
      r := Success(Ack);
    }

    /** The guard every session command shares: a current session that is
        in the table. */
    function CurrentSessionCheck(): (r: Result<Session, string>)
      reads this
      ensures r.Success? <==> currentSessionId != "" && currentSessionId in sessions
      ensures r.Success? ==> r.value == sessions[currentSessionId]
      ensures currentSessionId == "" ==> r == Failure(NoActiveSession)
      ensures currentSessionId != "" && currentSessionId !in sessions ==> r == Failure(SessionNotFound)
    {
      if currentSessionId == "" then Failure(NoActiveSession)
      else if currentSessionId !in sessions then Failure(SessionNotFound)
      else Success(sessions[currentSessionId])
    }

    twostate predicate ControlPlaybackPost(body: Option<Body>, now: int, new r: Result<Payload, string>)
      reads this
    {
      && FlagsUnchanged() && currentSessionId == old(currentSessionId)
      && (old(CurrentSessionCheck()).Failure? ==>
            r == Failure(old(CurrentSessionCheck()).error) && sessions == old(sessions))
      && (old(CurrentSessionCheck()).Success? && body.None? ==> r == Failure(MissingBody) && sessions == old(sessions))
      && (old(CurrentSessionCheck()).Success? && body.Some? ==>
            && r == Success(Ack)
            && sessions == old(sessions)[currentSessionId := Controlled(old(sessions)[currentSessionId], body.value.action, now)])
    }

    method HandleControlPlayback(body: Option<Body>, now: int) returns (r: Result<Payload, string>)
      requires Valid()
      modifies this
      ensures Valid() && ControlPlaybackPost(body, now, r)
    {
      var check := CurrentSessionCheck();
      if check.Failure? {
        return Failure(check.error);
      }
      if body.None? {
        return Failure(MissingBody);
      }
      TransitionsKeepSessionOk(check.value, body.value.action, 0, 0, EmptyItem, "", now);
      sessions := sessions[currentSessionId := Controlled(check.value, body.value.action, now)];
      r := Success(Ack);
    }

    twostate predicate SeekPost(body: Option<Body>, now: int, new r: Result<Payload, string>)
      requires old(Valid())
      reads this
    {
      && FlagsUnchanged() && currentSessionId == old(currentSessionId)
      && (old(currentSessionId) == "" ==> r == Failure(NoActiveSession) && sessions == old(sessions))
      && (old(currentSessionId) != ""
          && (old(currentSessionId) !in old(sessions) || old(sessions)[old(currentSessionId)].currentTrack.None?) ==>
            r == Failure(NoActiveTrack) && sessions == old(sessions))
      && (old(CurrentSessionCheck()).Success? && old(CurrentSessionCheck()).value.currentTrack.Some? ==>
            if body.None? then r == Failure(MissingBody) && sessions == old(sessions)
            else
              && r == Success(Ack)
              && old(sessions)[currentSessionId].currentTrack.Some?
              && sessions == old(sessions)[currentSessionId := Seeked(old(sessions)[currentSessionId], body.value.position, now)])
    }

    method HandleSeek(body: Option<Body>, now: int) returns (r: Result<Payload, string>)
      requires Valid()
      modifies this
      ensures Valid() && SeekPost(body, now, r)
    {
      if currentSessionId == "" {
        return Failure(NoActiveSession);
      }
      if currentSessionId !in sessions || sessions[currentSessionId].currentTrack.None? {
        return Failure(NoActiveTrack);
      }
      if body.None? {
        return Failure(MissingBody);
      }
      var s := sessions[currentSessionId];
      TransitionsKeepSessionOk(s, "", body.value.position, 0, EmptyItem, "", now);
      sessions := sessions[currentSessionId := Seeked(s, body.value.position, now)];
      r := Success(Ack);
    }

    twostate predicate SetVolumePost(body: Option<Body>, now: int, new r: Result<Payload, string>)
      reads this
    {
      && FlagsUnchanged() && currentSessionId == old(currentSessionId)
      && (old(CurrentSessionCheck()).Failure? ==>
            r == Failure(old(CurrentSessionCheck()).error) && sessions == old(sessions))
      && (old(CurrentSessionCheck()).Success? && body.None? ==> r == Failure(MissingBody) && sessions == old(sessions))
      && (old(CurrentSessionCheck()).Success? && body.Some? ==>
            && r == Success(Ack)
            && sessions == old(sessions)[currentSessionId := VolumeSet(old(sessions)[currentSessionId], body.value.volume, now)])
    }

    method HandleSetVolume(body: Option<Body>, now: int) returns (r: Result<Payload, string>)
      requires Valid()
      modifies this
      ensures Valid() && SetVolumePost(body, now, r)
    {
      var check := CurrentSessionCheck();
      if check.Failure? {
        return Failure(check.error);
      }
      if body.None? {
        return Failure(MissingBody);
      }
      TransitionsKeepSessionOk(check.value, "", 0, body.value.volume, EmptyItem, "", now);
      sessions := sessions[currentSessionId := VolumeSet(check.value, body.value.volume, now)];
      r := Success(Ack);
    }

    /** One entry appended at the end of the current session's queue; the
        priority is stored but never used for ordering. */
    twostate predicate AddToQueuePost(body: Option<Body>, now: nat, new r: Result<Payload, string>)
      reads this
    {
      && FlagsUnchanged() && currentSessionId == old(currentSessionId)
      && (old(CurrentSessionCheck()).Failure? ==>
            r == Failure(old(CurrentSessionCheck()).error) && sessions == old(sessions))
      && (old(CurrentSessionCheck()).Success? && body.None? ==> r == Failure(MissingBody) && sessions == old(sessions))
      && (old(CurrentSessionCheck()).Success? && body.Some? ==>
            var item := MockQueueItem(body.value.contentId, body.value.priority, now);
            && r == Success(ItemData(item))
            && sessions == old(sessions)[currentSessionId := Enqueued(old(sessions)[currentSessionId], item, now)])
    }

    method HandleAddToQueue(body: Option<Body>, now: nat) returns (r: Result<Payload, string>)
      requires Valid()
      modifies this
      ensures Valid() && AddToQueuePost(body, now, r)
    {
      var check := CurrentSessionCheck();
      if check.Failure? {
        return Failure(check.error);
      }
      if body.None? {
        return Failure(MissingBody);
      }
      var item := MockQueueItem(body.value.contentId, body.value.priority, now);
      TransitionsKeepSessionOk(check.value, "", 0, 0, item, "", now);
      sessions := sessions[currentSessionId := Enqueued(check.value, item, now)];
      r := Success(ItemData(item));
    }

    /** The current session's queue, or an empty one. */
    predicate QueueReply(r: Result<Payload, string>)
      reads this
    {
      r == Success(QueueData(if CurrentSessionCheck().Success? then CurrentSessionCheck().value.queue else []))
    }

    method HandleGetQueue() returns (r: Result<Payload, string>)
      ensures QueueReply(r)
    {
      var check := CurrentSessionCheck();
      r := Success(QueueData(if check.Success? then check.value.queue else []));
    }

    /** Every entry with the id removed; an absent id is a successful no-op
        on the queue. */
    twostate predicate RemoveFromQueuePost(queueItemId: string, now: int, new r: Result<Payload, string>)
      reads this
    {
      && FlagsUnchanged() && currentSessionId == old(currentSessionId)
      && (old(CurrentSessionCheck()).Failure? ==>
            r == Failure(old(CurrentSessionCheck()).error) && sessions == old(sessions))
      && (old(CurrentSessionCheck()).Success? ==>
            && r == Success(Ack)
            && sessions == old(sessions)[currentSessionId := Dequeued(old(sessions)[currentSessionId], queueItemId, now)])
    }

    method HandleRemoveFromQueue(queueItemId: string, now: int) returns (r: Result<Payload, string>)
      requires Valid()
      modifies this
      ensures Valid() && RemoveFromQueuePost(queueItemId, now, r)
    {
      var check := CurrentSessionCheck();
      if check.Failure? {
        return Failure(check.error);
      }
      TransitionsKeepSessionOk(check.value, "", 0, 0, EmptyItem, queueItemId, now);
      sessions := sessions[currentSessionId := Dequeued(check.value, queueItemId, now)];
      r := Success(Ack);
    }

    /** Ten canned results. */
    predicate SearchReply(r: Result<Payload, string>) {
      && r.Success? && r.value.ContentList? && |r.value.results| == 10
      && forall i :: 0 <= i < 10 ==> r.value.results[i] == MockSearchResult(i)
    }

    /** The handler is only reached with no query parameters, so the limit
        is the default of 50 and the cap of 10 applies. */
    method HandleSearchContent() returns (r: Result<Payload, string>)
      ensures SearchReply(r)
    {
      var limit := if SearchLimitDefault < SearchLimitCap then SearchLimitDefault else SearchLimitCap;
      r := Success(ContentList(MockSearchResults(limit)));
    }

    method HandleGetContent(contentId: string) returns (r: Result<Payload, string>)
      ensures r == Success(ContentData(MockContent(contentId)))
    {
      r := Success(ContentData(MockContent(contentId)));
    }

    /** What `handleRequest` promises for each route: the postcondition of
        the handler the route selects, called with the id the route
        extracts; a path no rule matches fails with "Unknown endpoint:
        <path>" and the listing route fails because its handler is
        missing, both without changing anything. */
    twostate predicate Dispatched(route: Route, endpoint: string, body: Option<Body>, now: nat, new r: Result<Payload, string>)
      requires old(Valid())
      reads this
    {
      match route
      case ConnectRoute => ConnectPost(body, now, r)
      case DisconnectRoute => DisconnectPost(r)
      case StatusRoute => GetStatusPost(now, r)
      case HeartbeatRoute => HeartbeatPost(now, r)
      case CreateSessionRoute => CreateSessionPost(body, now, r)
      case ListSessionsRoute => r == Failure(MissingListHandler) && Unchanged()
      case CurrentSessionRoute => CurrentSessionReply(r) && Unchanged()
      case LeaveRoute => LeaveSessionPost(now, r)
      case ControlRoute => ControlPlaybackPost(body, now, r)
      case SeekRoute => SeekPost(body, now, r)
      case VolumeRoute => SetVolumePost(body, now, r)
      case EnqueueRoute => AddToQueuePost(body, now, r)
      case QueueRoute => QueueReply(r) && Unchanged()
      case SearchRoute => SearchReply(r) && Unchanged()
      case JoinRoute(id) => JoinSessionPost(id, now, r)
      case DequeueRoute(id) => RemoveFromQueuePost(id, now, r)
      case ContentRoute(id) => r == Success(ContentData(MockContent(id))) && Unchanged()
      case UnknownRoute => r == Failure(UnknownEndpoint(endpoint)) && Unchanged()
    }

    /** `handleRequest`: the handler `RouteOf` selects runs. */
    method HandleRequest(endpoint: string, httpMethod: string, body: Option<Body>, now: nat)
      returns (r: Result<Payload, string>)
      requires Valid()
      modifies this
      ensures Valid()
      ensures Dispatched(RouteOf(endpoint, httpMethod), endpoint, body, now, r)
    {
      var route := RouteOf(endpoint, httpMethod);
      match route
      case ConnectRoute => r := HandleConnect(body, now);
      case DisconnectRoute => r := HandleDisconnect();
      case StatusRoute => r := HandleGetStatus(now);
      case HeartbeatRoute => r := HandleHeartbeat(now);
      case CreateSessionRoute => r := HandleCreateSession(body, now);
      case ListSessionsRoute => r := Failure(MissingListHandler);
      case CurrentSessionRoute => r := HandleGetCurrentSession();
      case LeaveRoute => r := HandleLeaveSession(now);
      case ControlRoute => r := HandleControlPlayback(body, now);
      case SeekRoute => r := HandleSeek(body, now);
      case VolumeRoute => r := HandleSetVolume(body, now);
      case EnqueueRoute => r := HandleAddToQueue(body, now);
      case QueueRoute => r := HandleGetQueue();
      case SearchRoute => r := HandleSearchContent();
      case JoinRoute(id) => r := HandleJoinSession(id, now);
      case DequeueRoute(id) => r := HandleRemoveFromQueue(id, now);
      case ContentRoute(id) => r := HandleGetContent(id);
      case UnknownRoute => r := Failure(UnknownEndpoint(endpoint));
    }

    /** A heartbeat interval firing: only the status time changes. */
    method HeartbeatFires(now: int)
      requires Valid() && liveHeartbeats > 0
      modifies this
      ensures Valid()
      ensures status == old(status).(lastHeartbeat := now)
      ensures sessions == old(sessions) && currentSessionId == old(currentSessionId)
      ensures isConnected == old(isConnected) && heartbeatHandle == old(heartbeatHandle) && liveHeartbeats == old(liveHeartbeats)
    {
      status := status.(lastHeartbeat := now);
    }

    /** One second of `startTrackProgression`: the current session, and no
        other, advances by `Ticked`. */
    method TrackProgressionTick(now: int)
      requires Valid()
      modifies this
      ensures Valid() && FlagsUnchanged() && currentSessionId == old(currentSessionId)
      ensures sessions == if currentSessionId != "" && currentSessionId in old(sessions)
                          then old(sessions)[currentSessionId := Ticked(old(sessions)[currentSessionId], now)]
                          else old(sessions)
      ensures forall k :: k in old(sessions) && k != currentSessionId ==> k in sessions && sessions[k] == old(sessions)[k]
    {
      if currentSessionId != "" && currentSessionId in sessions {
        var s := sessions[currentSessionId];
        TransitionsKeepSessionOk(s, "", 0, 0, EmptyItem, "", now);
        sessions := sessions[currentSessionId := Ticked(s, now)];
      }
    }
  }

  const EmptyItem: QueueItem := QueueItem("", "", "", "", 0, "", 0, 0)
}
