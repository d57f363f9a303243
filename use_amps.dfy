/** The React store over the controller client: one `AmpsState` record
    that each action moves through `setState` merges, and the periodic
    refresh interval. Each awaited client call is given its transport
    outcome as a parameter; an action whose record passes through a visible
    intermediate state while it awaits (`connecting`, `searching`) is split
    into the part before the await and the part after it. */
module AmpsStore {
  import opened Wrappers
  import opened Text
  import opened AmpsTypes
  import opened AmpsClientModel

  datatype AmpsState = AmpsState(
    connected: bool, connecting: bool, error: Option<string>,
    systemStatus: Option<SystemStatus>, currentSession: Option<Session>,
    content: seq<Content>, searchResults: seq<Content>, searching: bool)

  const InitialState: AmpsState := AmpsState(false, false, None, None, None, [], [], false)

  const ConnectFailed := "Failed to connect to AMPS system"

  /** Every field of the record but the session and the error. */
  predicate SameButSessionAndError(a: AmpsState, b: AmpsState) {
    a.(currentSession := b.currentSession, error := b.error) == b
  }

  class AmpsStoreHook {
    var state: AmpsState
    /** Whether `refreshIntervalRef.current` holds a handle, and how many
        refresh intervals run. */
    var refreshHandle: bool
    var liveRefreshTimers: nat
    const client: AmpsClient

    /** At most one refresh interval runs, and a running one is the one the
        ref holds. */
    predicate Valid()
      reads this, client
    {
      && client.Valid()
      && liveRefreshTimers <= 1
      && (liveRefreshTimers == 1 ==> refreshHandle)
    }

    constructor(client: AmpsClient)
      requires client.Valid()
      ensures Valid() && this.client == client
      ensures state == InitialState && !refreshHandle && liveRefreshTimers == 0
    {
      this.client := client;
      state := InitialState;
      refreshHandle := false;
      liveRefreshTimers := 0;
    }

    /** The synchronous start of `connect`. */
    method BeginConnect()
      requires Valid()
      modifies this
      ensures Valid()
      ensures state == old(state).(connecting := true, error := None)
      ensures refreshHandle == old(refreshHandle) && liveRefreshTimers == old(liveRefreshTimers)
    {
      state := state.(connecting := true, error := None);
    }

    /** `connect` once the client answers: `connecting` is over and
        `connected` is the client's result; a success starts the periodic
        refresh and loads the system status, a failure records the fixed
        message. The client never throws, so the store's catch branch is
        never taken. */
    method FinishConnect(reply: Result<bool, string>, statusReply: Result<SystemStatus, string>) returns (ok: bool)
      requires Valid()
      modifies this, client
      ensures Valid()
      ensures ok <==> reply == Success(true)
      ensures client.LinkOf() == Step(old(client.LinkOf()), ConnectCalled(ok))
      ensures ok ==>
        && state == old(state).(connected := true, connecting := false, error := None,
                               systemStatus := if statusReply.Success? then Some(statusReply.value) else old(state).systemStatus)
        && refreshHandle && liveRefreshTimers == 1
      ensures !ok ==>
        && state == old(state).(connected := false, connecting := false, error := Some(ConnectFailed))
        && refreshHandle == old(refreshHandle) && liveRefreshTimers == old(liveRefreshTimers)
    {
      var _, success := client.Connect(reply);
      if success {
        state := state.(connected := true, connecting := false, error := None);
        StartPeriodicRefresh();
        RefreshSystemStatus(statusReply);
        ok := true;
      } else {
        state := state.(connected := false, connecting := false, error := Some(ConnectFailed));
        ok := false;
      }
    }

    /** `disconnect`: the client swallows its own failures, so the store
        always clears the connection, session, status and error, and stops
        the refresh interval, even when the client still counts itself
        connected. */
    method Disconnect(reply: Result<Unit, string>)
      requires Valid()
      modifies this, client
      ensures Valid()
      ensures state == old(state).(connected := false, currentSession := None, systemStatus := None, error := None)
      ensures client.LinkOf() == Step(old(client.LinkOf()), DisconnectCalled(reply.Success?))
      ensures !refreshHandle && liveRefreshTimers == 0
    {
      var _ := client.Disconnect(reply);
      state := state.(connected := false, currentSession := None, systemStatus := None, error := None);
      if refreshHandle {
        liveRefreshTimers := 0;
        refreshHandle := false;
      }
    }

    /** A success replaces the current session; a failure records its
        message, answers `null` and leaves the session alone. */
    method CreateSession(name: string, settings: Option<SettingsPatch>, reply: Result<Session, string>)
      returns (r: Option<Session>)
      requires Valid()
      modifies this
      ensures Valid() && unchanged(client)
      ensures r == reply.ToOption()
      ensures reply.Success? ==> state == old(state).(currentSession := Some(reply.value))
      ensures reply.Failure? ==> state == old(state).(error := Some(reply.error))
      ensures refreshHandle == old(refreshHandle) && liveRefreshTimers == old(liveRefreshTimers)
    {
      var _, result := client.CreateSession(name, settings, reply);
      if result.Success? {
        state := state.(currentSession := Some(result.value));
        r := Some(result.value);
      } else {
        state := state.(error := Some(result.error));
        r := None;
      }
    }

    method JoinSession(sessionId: string, reply: Result<Session, string>) returns (r: Option<Session>)
      requires Valid()
      modifies this
      ensures Valid() && unchanged(client)
      ensures r == reply.ToOption()
      ensures reply.Success? ==> state == old(state).(currentSession := Some(reply.value))
      ensures reply.Failure? ==> state == old(state).(error := Some(reply.error))
      ensures refreshHandle == old(refreshHandle) && liveRefreshTimers == old(liveRefreshTimers)
    {
      var _, result := client.JoinSession(sessionId, reply);
      if result.Success? {
        state := state.(currentSession := Some(result.value));
        r := Some(result.value);
      } else {
        state := state.(error := Some(result.error));
        r := None;
      }
    }

    method LeaveSession(reply: Result<Unit, string>)
      requires Valid()
      modifies this
      ensures Valid() && unchanged(client)
      ensures reply.Success? ==> state == old(state).(currentSession := None)
      ensures reply.Failure? ==> state == old(state).(error := Some(reply.error))
      ensures refreshHandle == old(refreshHandle) && liveRefreshTimers == old(liveRefreshTimers)
    {
      var _, result := client.LeaveSession(reply);
      if result.Success? {
        state := state.(currentSession := None);
      } else {
        state := state.(error := Some(result.error));
      }
    }

    /** What every command action does once the client has answered: a
        success re-fetches the current session, a failure records its
        message. Nothing is propagated to the caller. */
    method AfterCommand(result: Result<Unit, string>, refreshReply: Result<Option<Session>, string>)
      requires Valid()
      modifies this
      ensures Valid() && unchanged(client)
      ensures result.Success? ==> state == old(state).(currentSession := CurrentSessionAfter(refreshReply))
      ensures result.Failure? ==> state == old(state).(error := Some(result.error))
      ensures SameButSessionAndError(old(state), state)
      ensures refreshHandle == old(refreshHandle) && liveRefreshTimers == old(liveRefreshTimers)
    {
      if result.Success? {
        RefreshCurrentSession(refreshReply);
      } else {
        state := state.(error := Some(result.error));
      }
    }

    method ControlPlayback(action: string, reply: Result<Unit, string>, refreshReply: Result<Option<Session>, string>)
      requires Valid()
      modifies this
      ensures Valid() && unchanged(client)
      ensures reply.Success? ==> state == old(state).(currentSession := CurrentSessionAfter(refreshReply))
      ensures reply.Failure? ==> state == old(state).(error := Some(reply.error))
      ensures refreshHandle == old(refreshHandle) && liveRefreshTimers == old(liveRefreshTimers)
    {
      var _, result := client.ControlPlayback(action, reply);
      AfterCommand(result, refreshReply);
    }

    method SeekTo(position: int, reply: Result<Unit, string>, refreshReply: Result<Option<Session>, string>)
      requires Valid()
      modifies this
      ensures Valid() && unchanged(client)
      ensures reply.Success? ==> state == old(state).(currentSession := CurrentSessionAfter(refreshReply))
      ensures reply.Failure? ==> state == old(state).(error := Some(reply.error))
      ensures refreshHandle == old(refreshHandle) && liveRefreshTimers == old(liveRefreshTimers)
    {
      var _, result := client.SeekTo(position, reply);
      AfterCommand(result, refreshReply);
    }

    method SetVolume(volume: int, reply: Result<Unit, string>, refreshReply: Result<Option<Session>, string>)
      requires Valid()
      modifies this
      ensures Valid() && unchanged(client)
      ensures reply.Success? ==> state == old(state).(currentSession := CurrentSessionAfter(refreshReply))
      ensures reply.Failure? ==> state == old(state).(error := Some(reply.error))
      ensures refreshHandle == old(refreshHandle) && liveRefreshTimers == old(liveRefreshTimers)
    {
      var _, result := client.SetVolume(volume, reply);
      AfterCommand(result, refreshReply);
    }

    /** Answers the new queue entry, or `null` after recording the error. */
    method AddToQueue(contentId: string, priority: int, reply: Result<QueueItem, string>,
                      refreshReply: Result<Option<Session>, string>) returns (r: Option<QueueItem>)
      requires Valid()
      modifies this
      ensures Valid() && unchanged(client)
      ensures r == reply.ToOption()
      ensures reply.Success? ==> state == old(state).(currentSession := CurrentSessionAfter(refreshReply))
      ensures reply.Failure? ==> state == old(state).(error := Some(reply.error))
      ensures refreshHandle == old(refreshHandle) && liveRefreshTimers == old(liveRefreshTimers)
    {
      var _, result := client.AddToQueue(contentId, priority, reply);
      if result.Success? {
        RefreshCurrentSession(refreshReply);
        r := Some(result.value);
      } else {
        state := state.(error := Some(result.error));
        r := None;
      }
    }

    method RemoveFromQueue(queueItemId: string, reply: Result<Unit, string>, refreshReply: Result<Option<Session>, string>)
      requires Valid()
      modifies this
      ensures Valid() && unchanged(client)
      ensures reply.Success? ==> state == old(state).(currentSession := CurrentSessionAfter(refreshReply))
      ensures reply.Failure? ==> state == old(state).(error := Some(reply.error))
      ensures refreshHandle == old(refreshHandle) && liveRefreshTimers == old(liveRefreshTimers)
    {
      var _, result := client.RemoveFromQueue(queueItemId, reply);
      AfterCommand(result, refreshReply);
    }

    method ReorderQueue(queueItemIds: seq<string>, reply: Result<Unit, string>, refreshReply: Result<Option<Session>, string>)
      requires Valid()
      modifies this
      ensures Valid() && unchanged(client)
      ensures reply.Success? ==> state == old(state).(currentSession := CurrentSessionAfter(refreshReply))
      ensures reply.Failure? ==> state == old(state).(error := Some(reply.error))
      ensures refreshHandle == old(refreshHandle) && liveRefreshTimers == old(liveRefreshTimers)
    {
      var _, result := client.ReorderQueue(queueItemIds, reply);
      AfterCommand(result, refreshReply);
    }

    /** The synchronous start of `searchContent`: a blank query clears the
        results and ends the search without calling the client (`proceed`
        is false); any other query marks the search as running. */
    method BeginSearch(query: string) returns (proceed: bool)
      requires Valid()
      modifies this
      ensures Valid() && unchanged(client)
      ensures proceed <==> !IsBlank(query)
      ensures !proceed ==> state == old(state).(searchResults := [], searching := false)
      ensures proceed ==> state == old(state).(searching := true)
      ensures refreshHandle == old(refreshHandle) && liveRefreshTimers == old(liveRefreshTimers)
    {
      if IsBlank(query) {
        state := state.(searchResults := [], searching := false);
        return false;
      }
      state := state.(searching := true);
      proceed := true;
    }

    /** `searchContent` once the client answers: the results, or none and
        the error; the search is over either way. */
    method FinishSearch(query: string, reply: Result<seq<Content>, string>)
      requires Valid()
      modifies this
      ensures Valid() && unchanged(client)
      ensures reply.Success? ==> state == old(state).(searchResults := reply.value, searching := false)
      ensures reply.Failure? ==> state == old(state).(searchResults := [], searching := false, error := Some(reply.error))
      ensures !state.searching
      ensures refreshHandle == old(refreshHandle) && liveRefreshTimers == old(liveRefreshTimers)
    {
      var _, result := client.SearchContent(query, DefaultSearchLimit, reply);
      if result.Success? {
        state := state.(searchResults := result.value, searching := false);
      } else {
        state := state.(searchResults := [], searching := false, error := Some(result.error));
      }
    }

    method GetContent(contentId: string, reply: Result<Content, string>) returns (r: Option<Content>)
      requires Valid()
      modifies this
      ensures Valid() && unchanged(client)
      ensures r == reply.ToOption()
      ensures reply.Success? ==> state == old(state)
      ensures reply.Failure? ==> state == old(state).(error := Some(reply.error))
      ensures refreshHandle == old(refreshHandle) && liveRefreshTimers == old(liveRefreshTimers)
    {
      var _, result := client.GetContent(contentId, reply);
      if result.Success? {
        r := Some(result.value);
      } else {
        state := state.(error := Some(result.error));
        r := None;
      }
    }

    /** A failure is only logged: the error field is never touched. */
    method RefreshSystemStatus(reply: Result<SystemStatus, string>)
      requires Valid()
      modifies this
      ensures Valid() && unchanged(client)
      ensures state == old(state).(systemStatus := if reply.Success? then Some(reply.value) else old(state).systemStatus)
      ensures state.error == old(state).error
      ensures refreshHandle == old(refreshHandle) && liveRefreshTimers == old(liveRefreshTimers)
    {
      var _, result := client.GetSystemStatus(reply);
      if result.Success? {
        state := state.(systemStatus := Some(result.value));
      }
    }

    /** The client answers `null` on failure, so a failed refresh drops the
        current session; the error field is never touched. */
    method RefreshCurrentSession(reply: Result<Option<Session>, string>)
      requires Valid()
      modifies this
      ensures Valid() && unchanged(client)
      ensures state == old(state).(currentSession := CurrentSessionAfter(reply))
      ensures state.error == old(state).error
      ensures refreshHandle == old(refreshHandle) && liveRefreshTimers == old(liveRefreshTimers)
    {
      var _, session := client.GetCurrentSession(reply);
      state := state.(currentSession := session);
    }

    /** Clears the running interval, if any, before starting a new one, so
        exactly one runs afterwards. */
    method StartPeriodicRefresh()
      requires Valid()
      modifies this
      ensures Valid() && unchanged(client)
      ensures state == old(state)
      ensures refreshHandle && liveRefreshTimers == 1
    {
      if refreshHandle && liveRefreshTimers > 0 {
        liveRefreshTimers := liveRefreshTimers - 1;
      }
      liveRefreshTimers := liveRefreshTimers + 1;
      refreshHandle := true;
    }

    /** The refresh interval fires: both refreshes run while the client
        counts itself connected, and nothing happens otherwise. */
    method RefreshTick(statusReply: Result<SystemStatus, string>, sessionReply: Result<Option<Session>, string>)
      requires Valid() && liveRefreshTimers > 0
      modifies this
      ensures Valid() && unchanged(client)
      ensures client.Connected() ==>
        state == old(state).(systemStatus := if statusReply.Success? then Some(statusReply.value) else old(state).systemStatus,
                             currentSession := CurrentSessionAfter(sessionReply))
      ensures !client.Connected() ==> state == old(state)
      ensures state.error == old(state).error
      ensures refreshHandle == old(refreshHandle) && liveRefreshTimers == old(liveRefreshTimers)
    {
      if client.Connected() {
        RefreshSystemStatus(statusReply);
        RefreshCurrentSession(sessionReply);
      }
    }

    /** The unmount cleanup clears the interval but leaves the ref set. */
    method Unmount()
      requires Valid()
      modifies this
      ensures Valid() && unchanged(client)
      ensures state == old(state) && refreshHandle == old(refreshHandle) && liveRefreshTimers == 0
    {
      if refreshHandle {
        liveRefreshTimers := 0;
      }
    }
  }

  /** The current session after a re-fetch: the client's answer, `null`
      when the request failed. */
  function CurrentSessionAfter(reply: Result<Option<Session>, string>): (r: Option<Session>)
    ensures reply.Failure? ==> r == None
    ensures reply.Success? ==> r == reply.value
  {
    if reply.Success? then reply.value else None
  }
}
