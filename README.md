# lirkod: playback controller, players and support logic in Dafny

This project models the behavioural core of lirkod, an Israeli folk-dance music
application, and proves properties of that model. Four groups of code are covered:

- **The playback controller simulator** (`MockAmpsServer`). It keeps an in-memory
  table of sessions and a current-session pointer. It routes request paths to handlers,
  and each handler creates, joins, leaves, controls, seeks, sets the volume of, or edits
  the queue of a session. A one-second tick advances the current track through the queue.
- **The controller client** (`AmpsClient`) **and its React store** (`useAmps`). The
  client builds the request for each operation and keeps a connection flag and a
  reconnect counter with bounded linear back-off. The store is one `AmpsState` record
  that each action moves through `setState` merges.
- **The local players.** `useMusicPlayer` keeps a queue of dances and a playing state.
  The web and mobile player contexts each have a `playerReducer` over a state record and
  a provider that dispatches sequences of actions around an audio engine.
- **Support logic.** The backend in-memory cache has per-entry expiry, an increment
  counter and a rate limiter, plus the session and stream caches built on it.
  `languageUtils` picks display names by language and colours by content type.

Modules follow the source files:

| file | module | source |
|---|---|---|
| mock_amps_server.dfy | `MockAmps` | lib/mock-amps-server.ts |
| amps_client.dfy | `AmpsClientModel` | lib/amps-client.ts |
| use_amps.dfy | `AmpsStore` | hooks/useAmps.ts |
| use_music_player.dfy | `LocalQueue` | hooks/useMusicPlayer.ts |
| web_player.dfy | `WebPlayer` | frontend/src/lib/music-player-context.tsx |
| mobile_player.dfy | `MobilePlayer` | mobile/src/contexts/MusicPlayerContext.tsx |
| memory_cache.dfy | `Cache` | backend/src/services/memory-cache.ts |
| language_utils.dfy | `LanguageUtils` | utils/languageUtils.ts |

Shared modules:

- `Wrappers` holds `Option` and `Result`.
- `Seqs` holds `filter`, `findIndex` and swap.
- `Text` models the JavaScript string built-ins the core relies on: `split`, `startsWith`,
  `includes`, `trim`, `String(n)`, `parseInt` and `encodeURIComponent`.
- `AmpsTypes` holds the controller's records.

Objects whose fields the source updates in place are classes whose methods state their
whole new state. The simulator, the client, the store, the player hook, the two providers
and the cache are modelled this way. The reducers, the routing, the session transitions
and the language utilities are functions.

Conventions the model uses throughout:

- The clock is a `now` parameter.
- Each transport outcome is a `Result` parameter. `Success` stands for the response body
  and `Failure` for a thrown error.
- Each timer callback is an explicit method: a heartbeat firing, a reconnect firing, the
  refresh tick, and the track-progression tick.
- `Math.random()` is a parameter `roll` in [0, 1).
- JavaScript truthiness is written out. An empty string is falsy, and so is an expiry of 0.

Behaviour of the code worth noting:

- The simulator's `createSession` stores the caller's volume without clamping it. Only
  `setVolume` clamps.
- The client's `disconnect` keeps `connected` when the request fails. The store clears
  its own `connected` regardless, because the client swallows the failure.
- The store's `connect` catch branch can never run, because the client's `connect` never
  throws. So `error` is only ever the fixed "Failed to connect to AMPS system" message.
- `connecting` can be true while `connected` is still true, if `connect` is called again
  on a live connection.
- The simulator's queue is appended to, not sorted by priority.
- The client's search request carries a query string. The simulator's exact-path match
  therefore misses it, and it is answered by the content lookup with the id
  `search?q=…` (`AmpsClientModel.SearchRoutesToContent`).
- The client's reorder request has no handler in the simulator and fails as an unknown
  endpoint (`MockAmps.ReorderIsUnknown`).

## Model

| member | source | states |
|---|---|---|
| AmpsTypes.MergeSettings | lib/mock-amps-server.ts:186-191 | `{ ...base, ...patch }`: each field is the patch's when present, the base's otherwise |
| AmpsTypes.MergeTwiceIsMergeOnce | lib/amps-client.ts:169-177 | the simulator spreading the client's already-merged settings over the same defaults changes nothing |
| Text.ParseIntToString | backend/src/services/memory-cache.ts:49-50 | `parseInt(String(i)) == i` for every integer, so a stored counter is read back exactly |
| Seqs.RemoveAllAppend | hooks/useMusicPlayer.ts:184-186 | filtering distributes over concatenation: survivors keep their relative order |
| Seqs.FindIndex | hooks/useMusicPlayer.ts:195 | −1 exactly when nothing matches, otherwise the first matching index |
| MockAmps.ExactRoute | lib/mock-amps-server.ts:78-120 | an exact path never yields a prefix rule's route or the unknown endpoint, and only `/api/sessions` yields the create/list pair |
| MockAmps.RouteOf | lib/mock-amps-server.ts:78-135 | join routes only paths under `/api/sessions/` containing `/join`; dequeue only DELETE under `/api/sessions/queue/`; content only under `/api/content/`; a path is unknown exactly when no exact case and no prefix rule accepts it |
| MockAmps.JoinPathRoutesToJoin | lib/mock-amps-server.ts:122-124 | `/api/sessions/{id}/join` reaches the join handler with `id` (segment 3), for any method |
| MockAmps.DeletePathRoutesToDequeue | lib/mock-amps-server.ts:126-128 | DELETE `/api/sessions/queue/{id}` reaches queue removal with `id` (segment 4) |
| MockAmps.ContentPathRoutesToLookup | lib/mock-amps-server.ts:130-132 | any path under `/api/content/` other than the search path reaches the content lookup with segment 3 |
| MockAmps.RouteOfUnderContent | lib/mock-amps-server.ts:130-132 | every non-exact path under `/api/content/` outside the session prefix is a content lookup of its segment 3 |
| MockAmps.ReorderIsUnknown | lib/mock-amps-server.ts:134 | POST `/api/sessions/queue/reorder` matches no rule and fails as an unknown endpoint |
| MockAmps.TrackFrom | lib/mock-amps-server.ts:251-257 | a loaded queue entry becomes a track with its id and duration at position 0 |
| MockAmps.NewSession | lib/mock-amps-server.ts:178-195 | active, one participant, empty queue, no track; name defaults to "New Session"; settings are the defaults overridden by the body's |
| MockAmps.Joined | lib/mock-amps-server.ts:208-209 | exactly one more participant; nothing else but the update time changes |
| MockAmps.Left | lib/mock-amps-server.ts:228-230 | one participant fewer, never below zero; nothing else but the update time changes |
| MockAmps.JoinThenLeave | lib/mock-amps-server.ts:202-235 | joining and then leaving restores the participant count |
| MockAmps.Controlled | lib/mock-amps-server.ts:246-286 | play activates and loads the queue head without removing it when no track is loaded; pause pauses; stop deactivates and clears the track; next shifts the head into the track or, on an empty queue, changes nothing; previous rewinds the track; any other action only touches the update time |
| MockAmps.NextConsumesPlayKeeps | lib/mock-amps-server.ts:248-280 | on a non-empty queue, next shortens the queue by its head and plays it, while play with no track plays the same head and keeps it queued |
| MockAmps.Seeked | lib/mock-amps-server.ts:303 | the new position is `max(0, min(p, duration))`; nothing else in the session or track changes |
| MockAmps.VolumeSet | lib/mock-amps-server.ts:319 | the new volume is `max(0, min(100, v))`, so always in [0, 100]; other settings are kept |
| MockAmps.MockQueueItem | lib/mock-amps-server.ts:335-344 | the appended entry carries the content id, the priority, the clock and a 180-second duration |
| MockAmps.Enqueued | lib/mock-amps-server.ts:346 | the entry is appended at the end and the length grows by one |
| MockAmps.Dequeued | lib/mock-amps-server.ts:371 | every entry with the id goes, every other entry stays, and an absent id leaves the queue as it was |
| MockAmps.DequeueIdempotent | lib/mock-amps-server.ts:371 | removing an id twice is removing it once |
| MockAmps.EnqueueThenDequeue | lib/mock-amps-server.ts:325-375 | appending an entry with a new id and removing that id restores the queue |
| MockAmps.Ticked | lib/mock-amps-server.ts:430-446 | only an active session with a track moves: position + 1; at the end, the queue head loads at position 0, or the track clears and the session goes inactive |
| MockAmps.TicksAdvance | lib/mock-amps-server.ts:430-433 | n ticks before the end add n to the position and leave status and queue alone |
| MockAmps.TrackFinishesOnTime | lib/mock-amps-server.ts:430-446 | a track at position p of duration d ends after exactly d − p ticks |
| MockAmps.TransitionsKeepSessionOk | lib/mock-amps-server.ts:202-375 | every transition keeps participants ≥ 0 and positions within a track's duration |
| MockAmps.MockSearchResults | lib/mock-amps-server.ts:383-394 | ten results whose durations, bpm, genre, year and key follow the handler's formulas |
| MockAmps.MockContent | lib/mock-amps-server.ts:401-413 | the content carries the requested id, 180 seconds, and the `/mock-audio/<id>.mp3` URL |
| MockAmps.InitialStatus | lib/mock-amps-server.ts:57-73 | disconnected, no sessions, audio and network connected, storage available |
| MockAmps.MockAmpsServer.constructor | lib/mock-amps-server.ts:51-73 | empty table, no current session, initial status, no heartbeat |
| MockAmps.MockAmpsServer.HandleConnect | lib/mock-amps-server.ts:138-150 | marks connected and starts one more heartbeat before the body is read; with a body, answers the client id and capabilities, without one fails |
| MockAmps.MockAmpsServer.HandleDisconnect | lib/mock-amps-server.ts:152-163 | disconnected, no current session, heartbeat handle cleared; the table is kept |
| MockAmps.MockAmpsServer.HandleGetStatus | lib/mock-amps-server.ts:165-171 | both session counts report the table size |
| MockAmps.MockAmpsServer.HandleHeartbeat | lib/mock-amps-server.ts:173-176 | only the status time changes |
| MockAmps.MockAmpsServer.HandleCreateSession | lib/mock-amps-server.ts:178-200 | stores `NewSession` under `session-<now>` and makes it current; a missing body fails with nothing changed |
| MockAmps.MockAmpsServer.HandleJoinSession | lib/mock-amps-server.ts:202-213 | an unknown id fails with "Session not found" and nothing changes; otherwise one more participant and the session becomes current |
| MockAmps.MockAmpsServer.HandleGetCurrentSession | lib/mock-amps-server.ts:215-222 | the current session, or none when there is no live one |
| MockAmps.MockAmpsServer.HandleLeaveSession | lib/mock-amps-server.ts:224-235 | always succeeds and clears the current session; a live current session loses one participant |
| MockAmps.MockAmpsServer.CurrentSessionCheck | lib/mock-amps-server.ts:238-245 | success exactly for a live current session; "No active session" without one, "Session not found" for a dangling id |
| MockAmps.MockAmpsServer.HandleControlPlayback | lib/mock-amps-server.ts:237-291 | the guard's failure changes nothing; otherwise the current session becomes `Controlled(s, action)` and no other session changes |
| MockAmps.MockAmpsServer.HandleSeek | lib/mock-amps-server.ts:293-307 | "No active session" or "No active track" change nothing; otherwise the current session becomes `Seeked` |
| MockAmps.MockAmpsServer.HandleSetVolume | lib/mock-amps-server.ts:309-323 | the guard's failure changes nothing; otherwise the current session becomes `VolumeSet` |
| MockAmps.MockAmpsServer.HandleAddToQueue | lib/mock-amps-server.ts:325-350 | the guard's failure changes nothing; otherwise one entry (priority `body.priority` or 0) is appended to the current session |
| MockAmps.MockAmpsServer.HandleGetQueue | lib/mock-amps-server.ts:352-359 | the current session's queue, or empty without one |
| MockAmps.MockAmpsServer.HandleRemoveFromQueue | lib/mock-amps-server.ts:361-375 | the guard's failure changes nothing; otherwise the current session becomes `Dequeued` |
| MockAmps.MockAmpsServer.HandleSearchContent | lib/mock-amps-server.ts:377-398 | ten canned results |
| MockAmps.MockAmpsServer.HandleGetContent | lib/mock-amps-server.ts:400-416 | the canned content for the id |
| MockAmps.MockAmpsServer.HandleRequest | lib/mock-amps-server.ts:75-136 | for every route, the full postcondition of the handler `RouteOf` selects, called with the id the route extracts (`Dispatched`): reply and new state on success and on each failure; the listing route fails for its missing handler and an unknown route fails with "Unknown endpoint: <path>", both with nothing changed |
| MockAmps.MockAmpsServer.HeartbeatFires | lib/mock-amps-server.ts:418-423 | only the status time changes |
| MockAmps.MockAmpsServer.TrackProgressionTick | lib/mock-amps-server.ts:426-451 | the current session becomes `Ticked`; no other session is touched |
| AmpsClientModel.Clamp | lib/amps-client.ts:285 | the result lies in [lo, hi] and equals v inside it |
| AmpsClientModel.RequestOf | lib/amps-client.ts:89-374 | reads are credential-less GETs, removal a DELETE, the rest bearer POSTs; bodies carry the merged settings, the clamped volume, the action, position, content id and priority |
| AmpsClientModel.ClientRequestsRoute | lib/amps-client.ts:419-423 | each request the client sends reaches the matching simulator handler with the right id; reorder reaches no handler and search reaches content lookup with its query string as the id |
| AmpsClientModel.SearchRoutesToContent | lib/amps-client.ts:355 | the search request reaches the simulator's content lookup with the id `search?q=<encoded query>&limit=<limit>`, query string and all |
| AmpsClientModel.CreatedThroughClient | lib/amps-client.ts:161-185 | a session created through the client has the caller's settings merged over the defaults |
| AmpsClientModel.VolumeThroughClient | lib/amps-client.ts:277-291 | whatever volume a caller asks for, the simulator stores a value in [0, 100] |
| AmpsClientModel.ScheduledDelay | lib/amps-client.ts:401-410 | a reconnect is scheduled exactly below 5 attempts, after 5000 × (attempts + 1) ms |
| AmpsClientModel.AfterHeartbeatFailure | lib/amps-client.ts:398-414 | disconnected; one more attempt counted below the maximum, none at it |
| AmpsClientModel.Step | lib/amps-client.ts:89-143 | a successful reconnect resets the counter; connect sets the flag to its result; disconnect clears it only on success |
| AmpsClientModel.AttemptsStayBounded | lib/amps-client.ts:77 | under any sequence of events the counter never exceeds 5 |
| AmpsClientModel.LinearBackoff | lib/amps-client.ts:410 | the i-th failure in a row waits 5000 × (a + i + 1) ms until the maximum, then nothing |
| AmpsClientModel.FreshBackoff | lib/amps-client.ts:401-410 | from a fresh counter, six failures wait 5, 10, 15, 20, 25 s and then nothing |
| AmpsClientModel.AmpsClient.constructor | lib/amps-client.ts:79-84 | the timeout is 10000 ms unless the configuration gives one; disconnected, no attempts |
| AmpsClientModel.AmpsClient.Connect | lib/amps-client.ts:89-119 | true, with the flag set and a heartbeat started, exactly when the response reports success; never throws |
| AmpsClientModel.AmpsClient.Disconnect | lib/amps-client.ts:124-143 | always clears the heartbeat; clears the flag only when the request succeeds |
| AmpsClientModel.AmpsClient.HandleConnectionError | lib/amps-client.ts:398-414 | disconnected; schedules the `ScheduledDelay` reconnect and counts it |
| AmpsClientModel.AmpsClient.HeartbeatFires | lib/amps-client.ts:379-393 | a failed heartbeat is a connection error; a successful one changes nothing |
| AmpsClientModel.AmpsClient.ReconnectFires | lib/amps-client.ts:405-409 | a scheduled reconnect connects, and only its success resets the counter |
| AmpsClientModel.AmpsClient.GetConnectionStatus | lib/amps-client.ts:469-479 | the flag, the counter and the maximum 5 |
| AmpsClientModel.AmpsClient.GetSystemStatus | lib/amps-client.ts:148-156 | sends the status request and rethrows a failure |
| AmpsClientModel.AmpsClient.CreateSession | lib/amps-client.ts:161-185 | sends the merged settings and rethrows a failure |
| AmpsClientModel.AmpsClient.JoinSession | lib/amps-client.ts:190-204 | sends the join request for the id and rethrows a failure |
| AmpsClientModel.AmpsClient.LeaveSession | lib/amps-client.ts:209-221 | sends the leave request and rethrows a failure |
| AmpsClientModel.AmpsClient.GetCurrentSession | lib/amps-client.ts:226-234 | the session, or `null` on any failure |
| AmpsClientModel.AmpsClient.ControlPlayback | lib/amps-client.ts:239-253 | sends the action and rethrows a failure |
| AmpsClientModel.AmpsClient.SeekTo | lib/amps-client.ts:258-272 | sends the position and rethrows a failure |
| AmpsClientModel.AmpsClient.SetVolume | lib/amps-client.ts:277-291 | always sends a volume in [0, 100] |
| AmpsClientModel.AmpsClient.AddToQueue | lib/amps-client.ts:296-312 | sends content id and priority and rethrows a failure |
| AmpsClientModel.AmpsClient.RemoveFromQueue | lib/amps-client.ts:317-329 | sends a DELETE for the entry and rethrows a failure |
| AmpsClientModel.AmpsClient.ReorderQueue | lib/amps-client.ts:334-348 | sends the reorder request and rethrows a failure |
| AmpsClientModel.AmpsClient.SearchContent | lib/amps-client.ts:353-361 | sends the encoded query and limit and rethrows a failure |
| AmpsClientModel.AmpsClient.GetContent | lib/amps-client.ts:366-374 | sends the content request and rethrows a failure |
| AmpsStore.AmpsStoreHook.constructor | hooks/useAmps.ts:37-46 | all flags false, nothing loaded, empty lists, no refresh interval |
| AmpsStore.AmpsStoreHook.BeginConnect | hooks/useAmps.ts:52 | connecting, error cleared |
| AmpsStore.AmpsStoreHook.FinishConnect | hooks/useAmps.ts:54-90 | no longer connecting; connected is the client's result; success starts one refresh interval and loads the status; failure records the fixed message |
| AmpsStore.AmpsStoreHook.Disconnect | hooks/useAmps.ts:94-113 | connection, session, status and error cleared and the refresh interval stopped, even when the client stays connected |
| AmpsStore.AmpsStoreHook.CreateSession | hooks/useAmps.ts:116-127 | success replaces the session; failure records the error, answers `null` and keeps the session |
| AmpsStore.AmpsStoreHook.JoinSession | hooks/useAmps.ts:129-140 | success replaces the session; failure records the error, answers `null` and keeps the session |
| AmpsStore.AmpsStoreHook.LeaveSession | hooks/useAmps.ts:142-151 | success clears the session; failure changes only the error |
| AmpsStore.AmpsStoreHook.AfterCommand | hooks/useAmps.ts:153-163 | success re-fetches the session, failure records the error; nothing but session and error changes |
| AmpsStore.AmpsStoreHook.ControlPlayback | hooks/useAmps.ts:153-163 | re-fetch on success, error on failure, nothing propagated |
| AmpsStore.AmpsStoreHook.SeekTo | hooks/useAmps.ts:165-174 | re-fetch on success, error on failure, nothing propagated |
| AmpsStore.AmpsStoreHook.SetVolume | hooks/useAmps.ts:176-185 | re-fetch on success, error on failure, nothing propagated |
| AmpsStore.AmpsStoreHook.AddToQueue | hooks/useAmps.ts:187-198 | re-fetch and the new entry on success; error and `null` on failure |
| AmpsStore.AmpsStoreHook.RemoveFromQueue | hooks/useAmps.ts:200-209 | re-fetch on success, error on failure, nothing propagated |
| AmpsStore.AmpsStoreHook.ReorderQueue | hooks/useAmps.ts:211-220 | re-fetch on success, error on failure, nothing propagated |
| AmpsStore.AmpsStoreHook.BeginSearch | hooks/useAmps.ts:222-228 | a blank query clears the results without calling the client; any other marks the search running |
| AmpsStore.AmpsStoreHook.FinishSearch | hooks/useAmps.ts:230-241 | the results, or none and the error; `searching` is false after every completion |
| AmpsStore.AmpsStoreHook.GetContent | hooks/useAmps.ts:245-255 | the content, or `null` and the error |
| AmpsStore.AmpsStoreHook.RefreshSystemStatus | hooks/useAmps.ts:257-265 | the status on success, unchanged on failure; the error is never touched |
| AmpsStore.AmpsStoreHook.RefreshCurrentSession | hooks/useAmps.ts:267-275 | the client's answer (`null` on failure); the error is never touched |
| AmpsStore.AmpsStoreHook.StartPeriodicRefresh | hooks/useAmps.ts:277-290 | clears any running interval first, so exactly one runs afterwards |
| AmpsStore.AmpsStoreHook.RefreshTick | hooks/useAmps.ts:282-288 | both refreshes while the client is connected, nothing otherwise; the error is never touched |
| AmpsStore.AmpsStoreHook.Unmount | hooks/useAmps.ts:293-299 | the interval is cleared and the ref left set |
| AmpsStore.CurrentSessionAfter | hooks/useAmps.ts:267-275 | the client's answer on success, `null` on failure |
| LocalQueue.RemoveById | hooks/useMusicPlayer.ts:184-186 | every entry with the id goes and every other stays; an absent id keeps the queue |
| LocalQueue.RemoveByIdKeepsOrder | hooks/useMusicPlayer.ts:184-186 | removal keeps the relative order of the remaining entries |
| LocalQueue.RemoveByIdIdempotent | hooks/useMusicPlayer.ts:184-186 | removing twice is removing once |
| LocalQueue.AddThenRemove | hooks/useMusicPlayer.ts:180-186 | appending a dance with a new id and removing that id restores the queue |
| LocalQueue.MovedInQueue | hooks/useMusicPlayer.ts:192-207 | a permutation of the same length; unchanged for an absent id or a move past either end; otherwise the first match swapped with its neighbour |
| LocalQueue.UpThenDownRestores | hooks/useMusicPlayer.ts:199-203 | 'up' then 'down' restores the queue unless the dance was at the head |
| LocalQueue.NextChoice | hooks/useMusicPlayer.ts:136-152 | the dance after the first occurrence of the current one; the head when it is not queued; nothing past the end or on an empty queue |
| LocalQueue.PreviousChoice | hooks/useMusicPlayer.ts:154-163 | the dance before the current one; nothing at the head or when it is not queued |
| LocalQueue.NextThenPrevious | hooks/useMusicPlayer.ts:136-163 | with distinct ids, next then previous returns to the dance that was playing |
| LocalQueue.EndedListenerIgnoresQueue | hooks/useMusicPlayer.ts:55-57 | the listener's `next` sees an empty queue and stops, where the current `next` would play the second dance |
| LocalQueue.MusicPlayer.constructor | hooks/useMusicPlayer.ts:29-35 | nothing current, not playing, volume 0.7, rate 1, empty queue |
| LocalQueue.MusicPlayer.Play | hooks/useMusicPlayer.ts:87-114 | the dance is current; it plays exactly when its URL starts with "http" and the audio element's `play()` succeeds |
| LocalQueue.MusicPlayer.Pause | hooks/useMusicPlayer.ts:116-121 | not playing; nothing else changes |
| LocalQueue.MusicPlayer.Resume | hooks/useMusicPlayer.ts:123-134 | only a paused dance with a URL resumes, as the audio element allows |
| LocalQueue.MusicPlayer.Next | hooks/useMusicPlayer.ts:136-152 | plays `NextChoice`, or clears the current dance and stops |
| LocalQueue.MusicPlayer.Previous | hooks/useMusicPlayer.ts:154-163 | plays `PreviousChoice`, or changes nothing |
| LocalQueue.MusicPlayer.AudioEndedAsWritten | hooks/useMusicPlayer.ts:55-57 | the end of a track always clears the current dance and stops |
| LocalQueue.MusicPlayer.AudioEnded | hooks/useMusicPlayer.ts:55-57 | the end of a track advances as `Next` does over the current queue |
| LocalQueue.MusicPlayer.AudioError | hooks/useMusicPlayer.ts:59-63 | not playing; nothing else changes |
| LocalQueue.MusicPlayer.Seek | hooks/useMusicPlayer.ts:165-170 | the time is set; nothing else changes |
| LocalQueue.MusicPlayer.SetVolume | hooks/useMusicPlayer.ts:172-174 | the volume is set; nothing else changes |
| LocalQueue.MusicPlayer.SetPlaybackRate | hooks/useMusicPlayer.ts:176-178 | the rate is set; nothing else changes |
| LocalQueue.MusicPlayer.AddToQueue | hooks/useMusicPlayer.ts:180-182 | the dance is appended and the length grows by one |
| LocalQueue.MusicPlayer.RemoveFromQueue | hooks/useMusicPlayer.ts:184-186 | the queue becomes `RemoveById` of the old one |
| LocalQueue.MusicPlayer.ClearQueue | hooks/useMusicPlayer.ts:188-190 | the queue is empty |
| LocalQueue.MusicPlayer.MoveInQueue | hooks/useMusicPlayer.ts:192-207 | the queue becomes `MovedInQueue` of the old one |
| WebPlayer.JsRem | frontend/src/lib/music-player-context.tsx:122 | JavaScript `%`: Euclidean for a non-negative dividend, sign of the dividend otherwise |
| WebPlayer.ShuffleIndex | frontend/src/lib/music-player-context.tsx:121 | `Math.floor(roll × n)` lies in [0, n) |
| WebPlayer.Reduce | frontend/src/lib/music-player-context.tsx:84-143 | every field the action does not name keeps its value |
| WebPlayer.ReduceKeepsIndexInRange | frontend/src/lib/music-player-context.tsx:116-129 | every dispatchable action keeps the index inside the queue (0 on an empty one) |
| WebPlayer.NextWrapsAround | frontend/src/lib/music-player-context.tsx:119-123 | non-shuffled next wraps from the last entry to 0 |
| WebPlayer.NextAndPreviousAreInverse | frontend/src/lib/music-player-context.tsx:119-129 | non-shuffled next and previous undo each other, in both orders |
| WebPlayer.TogglesAreInvolutions | frontend/src/lib/music-player-context.tsx:95-111 | toggling play, mute or shuffle twice restores the state |
| WebPlayer.ErrorStopsLoadingAndSongClearsError | frontend/src/lib/music-player-context.tsx:86-87 | setting an error stops loading; setting a song clears the error |
| WebPlayer.LoadingThenClearedError | frontend/src/lib/music-player-context.tsx:131-135 | loading then clearing the error leaves the player not loading; the other order keeps it loading |
| WebPlayer.UnknownActionKeepsState | frontend/src/lib/music-player-context.tsx:140-141 | an unknown action returns the state unchanged |
| WebPlayer.WebPlayerProvider.constructor | frontend/src/lib/music-player-context.tsx:69-82 | the initial state, no sound |
| WebPlayer.WebPlayerProvider.PlaySongAsWritten | frontend/src/lib/music-player-context.tsx:181-239 | the queue and song are installed as given, the new sound's handlers capture the state on entry, and `isLoading` is false while the sound loads |
| WebPlayer.WebPlayerProvider.PlaySong | frontend/src/lib/music-player-context.tsx:181-239 | as written, but `isLoading` stays true until the sound reports |
| WebPlayer.WebPlayerProvider.OnLoad | frontend/src/lib/music-player-context.tsx:210-215 | loading stops, duration recorded, playing |
| WebPlayer.WebPlayerProvider.OnLoadError | frontend/src/lib/music-player-context.tsx:234-237 | "Failed to load audio", loading stops |
| WebPlayer.WebPlayerProvider.OnEndAsWritten | frontend/src/lib/music-player-context.tsx:224-233 | decides on the state captured when the sound was created: repeat-one changes nothing; advancing dispatches `NEXT_SONG` to the current state only if the captured queue is non-empty; otherwise playback stops |
| WebPlayer.WebPlayerProvider.OnEnd | frontend/src/lib/music-player-context.tsx:224-233 | the same decision on the current state: repeat-one changes nothing; repeat-all or a non-last index advances; otherwise playback stops |
| WebPlayer.CapturedEndStopsAfterFirst | frontend/src/lib/music-player-context.tsx:224-233 | after `playSong(a, [a, b], 0)` from an empty queue, the captured handler stays on `a` and stops (repeat none) or does nothing (repeat all), while the current-state handler moves on to `b` |
| WebPlayer.WebPlayerProvider.IndexEffectAsWritten | frontend/src/lib/music-player-context.tsx:165-172 | the song at the index is played by the as-written `playSong` when it is not already current, so `isLoading` is false while it loads; otherwise nothing changes |
| WebPlayer.WebPlayerProvider.IndexEffect | frontend/src/lib/music-player-context.tsx:165-172 | the same effect calling the corrected `playSong`: the song it starts is marked loading |
| WebPlayer.WebPlayerProvider.PlayNext | frontend/src/lib/music-player-context.tsx:257-261 | next only on a non-empty queue, keeping the index in range |
| WebPlayer.WebPlayerProvider.PlayPrevious | frontend/src/lib/music-player-context.tsx:263-267 | previous only on a non-empty queue, keeping the index in range |
| WebPlayer.WebPlayerProvider.SeekTo | frontend/src/lib/music-player-context.tsx:269-274 | the time is set only when a sound exists |
| WebPlayer.WebPlayerProvider.SetVolume | frontend/src/lib/music-player-context.tsx:276-278 | only the volume changes |
| WebPlayer.WebPlayerProvider.ToggleMute | frontend/src/lib/music-player-context.tsx:280-282 | only the mute flag flips |
| WebPlayer.WebPlayerProvider.ToggleShuffle | frontend/src/lib/music-player-context.tsx:284-286 | only the shuffle flag flips |
| WebPlayer.WebPlayerProvider.SetRepeatMode | frontend/src/lib/music-player-context.tsx:288-290 | only the repeat mode changes |
| WebPlayer.WebPlayerProvider.AddToQueue | frontend/src/lib/music-player-context.tsx:292-294 | the songs are appended and the index returns to 0 |
| WebPlayer.WebPlayerProvider.ClearQueue | frontend/src/lib/music-player-context.tsx:296-302 | empty queue, index 0, not playing |
| MobilePlayer.Reduce | mobile/src/contexts/MusicPlayerContext.tsx:63-101 | every field the action does not name keeps its value |
| MobilePlayer.InitialStateIsIdle | mobile/src/contexts/MusicPlayerContext.tsx:52-61 | not playing, time and duration 0, not muted, not loading, no error, no song |
| MobilePlayer.TogglesAreInvolutions | mobile/src/contexts/MusicPlayerContext.tsx:74-87 | toggling play or mute twice restores the state |
| MobilePlayer.ErrorStopsLoadingAndSongClearsError | mobile/src/contexts/MusicPlayerContext.tsx:65-93 | setting an error stops loading; setting a song sets it and clears the error |
| MobilePlayer.SeekIsSetCurrentTime | mobile/src/contexts/MusicPlayerContext.tsx:77-96 | seek and set-time are the same transition and change only the time |
| MobilePlayer.UnknownActionKeepsState | mobile/src/contexts/MusicPlayerContext.tsx:98-99 | an unknown action returns the state unchanged |
| MobilePlayer.MobilePlayerProvider.constructor | mobile/src/contexts/MusicPlayerContext.tsx:106-107 | the initial state, no sound, nothing unloaded |
| MobilePlayer.MobilePlayerProvider.PlaySong | mobile/src/contexts/MusicPlayerContext.tsx:117-143 | the song is current and loading is over; a created sound plays and is usable; a failure records "Failed to load audio" and leaves the previous sound object in place, unloaded |
| MobilePlayer.MobilePlayerProvider.OnPlaybackStatusUpdate | mobile/src/contexts/MusicPlayerContext.tsx:145-154 | a loaded status sets time and duration and pauses when finished; otherwise nothing changes |
| MobilePlayer.MobilePlayerProvider.SeekTo | mobile/src/contexts/MusicPlayerContext.tsx:156-161 | the time is set only when a sound exists and has not been unloaded; otherwise nothing changes |
| MobilePlayer.MobilePlayerProvider.SetVolume | mobile/src/contexts/MusicPlayerContext.tsx:163-168 | the volume is set only when a sound exists and has not been unloaded; otherwise nothing changes |
| MobilePlayer.MobilePlayerProvider.ToggleMute | mobile/src/contexts/MusicPlayerContext.tsx:170-176 | with a sound that has not been unloaded, the mute flag flips and the sound gets 0 or the stored volume; otherwise nothing changes |
| Cache.Lookup | backend/src/services/memory-cache.ts:12-23 | a value exactly for a present, unexpired key, and it is the stored one |
| Cache.AfterRead | backend/src/services/memory-cache.ts:17-19 | a read deletes the key if expired and changes nothing else |
| Cache.ReadIsStable | backend/src/services/memory-cache.ts:12-23 | reading twice is reading once |
| Cache.ExpiryFor | backend/src/services/memory-cache.ts:26 | an expiry exactly for a non-zero TTL, at now + ttl × 1000 |
| Cache.SetThenLookup | backend/src/services/memory-cache.ts:12-28 | a stored value is read back until its TTL runs out, and other keys read as before |
| Cache.IncrementValue | backend/src/services/memory-cache.ts:49 | 1 for an absent or empty value, `parseInt(v) + 1` otherwise |
| Cache.IncrementCounts | backend/src/services/memory-cache.ts:47-52 | the next increment reads back the stored count as the same number |
| Cache.Incremented | backend/src/services/memory-cache.ts:47-52 | the new count is stored without an expiry |
| Cache.IncrementedKeepingExpiry | backend/src/services/memory-cache.ts:47-52 | the new count is stored keeping the live entry's expiry; other keys untouched |
| Cache.Expiring | backend/src/services/memory-cache.ts:54-59 | a present entry gets expiry now + seconds × 1000; a missing key stays missing; others untouched |
| Cache.MemoryCache.constructor | backend/src/services/memory-cache.ts:10 | an empty table |
| Cache.MemoryCache.Get | backend/src/services/memory-cache.ts:12-23 | answers `Lookup` and leaves the table as `AfterRead` |
| Cache.MemoryCache.Set | backend/src/services/memory-cache.ts:25-28 | overwrites the entry with the value and `ExpiryFor` |
| Cache.MemoryCache.Del | backend/src/services/memory-cache.ts:30-32 | the key goes and nothing else changes |
| Cache.MemoryCache.Exists | backend/src/services/memory-cache.ts:34-45 | true exactly when `get` would answer a value, with the same deletion |
| Cache.MemoryCache.Increment | backend/src/services/memory-cache.ts:47-52 | `Incremented` |
| Cache.MemoryCache.IncrementKeepingExpiry | backend/src/services/memory-cache.ts:47-52 | `IncrementedKeepingExpiry` |
| Cache.MemoryCache.Expire | backend/src/services/memory-cache.ts:54-59 | `Expiring` |
| Cache.MemoryCache.Clear | backend/src/services/memory-cache.ts:62-64 | the table is empty and the size 0 |
| Cache.MemoryCache.Size | backend/src/services/memory-cache.ts:67-69 | 0 exactly for an empty table |
| Cache.KeyFamiliesAreDisjoint | backend/src/services/memory-cache.ts:79-118 | session, stream and rate-limit keys never collide, and each names its identifier |
| Cache.SetSession | backend/src/services/memory-cache.ts:78-81 | stores under `session:<id>` with the caller's TTL or 3600 |
| Cache.GetSession | backend/src/services/memory-cache.ts:83-87 | the live `session:<id>` text, or nothing |
| Cache.DeleteSession | backend/src/services/memory-cache.ts:89-92 | `session:<id>` goes and nothing else changes |
| Cache.CacheStreamData | backend/src/services/memory-cache.ts:111-114 | stores under `stream:<id>` with the caller's TTL or 1800 |
| Cache.GetStreamData | backend/src/services/memory-cache.ts:116-120 | the live `stream:<id>` text, or nothing |
| Cache.LimitStep | backend/src/services/memory-cache.ts:97-106 | count, open the window when the count is 1, allow when count ≤ limit |
| Cache.LimitStepKeepingWindow | backend/src/services/memory-cache.ts:97-106 | the same step over the increment that keeps the window |
| Cache.LimitRun | backend/src/services/memory-cache.ts:97-106 | one answer per call |
| Cache.RefusedStaysRefused | backend/src/services/memory-cache.ts:97-106 | as written, a refused identifier is refused on the next call, whenever it comes |
| Cache.RefusedForever | backend/src/services/memory-cache.ts:97-106 | as written, a refused identifier is refused on every later call |
| Cache.WindowReopens | backend/src/services/memory-cache.ts:97-106 | with the window kept, a call after the window is allowed and opens a new one |
| Cache.WindowIsKept | backend/src/services/memory-cache.ts:99-103 | with the window kept, a counted call inside a live window keeps its expiry |
| Cache.FirstCallOpensWindow | backend/src/services/memory-cache.ts:99-103 | the first call on a fresh key is allowed and opens the window |
| Cache.RateLimitTraceAsWritten | backend/src/services/memory-cache.ts:97-106 | limit 1, 60 s window: calls at 0, 1 ms and 120 s answer allowed, refused, refused |
| Cache.RateLimitTraceKeepingWindow | backend/src/services/memory-cache.ts:97-106 | the same calls with the window kept answer allowed, refused, allowed |
| Cache.CheckLimitAsWritten | backend/src/services/memory-cache.ts:96-107 | `LimitStep` on `rate_limit:<id>` |
| Cache.CheckLimit | backend/src/services/memory-cache.ts:96-107 | `LimitStepKeepingWindow` on `rate_limit:<id>` |
| LanguageUtils.DisplayName | utils/languageUtils.ts:6-47 | never empty: "Unknown" for nothing; the Hebrew name in Hebrew when non-empty; otherwise the English name or "Unknown" |
| LanguageUtils.EnglishIgnoresHebrew | utils/languageUtils.ts:9-13 | in English the Hebrew name is never consulted |
| LanguageUtils.LanguageText | utils/languageUtils.ts:140-142 | the text in the language when non-empty, the English otherwise |
| LanguageUtils.ContentTypesAreComplete | utils/languageUtils.ts:203-217 | every content type has non-empty English and Hebrew names |
| LanguageUtils.DanceTypeDisplayName | utils/languageUtils.ts:50-65 | never empty: the table's name for one of its keys, the common rule otherwise |
| LanguageUtils.DanceTypeColor | utils/languageUtils.ts:68-101 | never empty |
| LanguageUtils.DanceTypeBorderColor | utils/languageUtils.ts:104-137 | never empty |
| LanguageUtils.ColorsRecogniseTheTableKeys | utils/languageUtils.ts:68-137 | a name gets a non-gray colour iff a non-gray border iff it is one of the 13 table keys |

## Left out

- Timers: `setInterval` and `setTimeout` scheduling is not modelled. Each callback is a
  method the environment calls: the simulator heartbeat and tick, the client heartbeat
  and reconnect, and the store refresh. Running intervals are counted, so a heartbeat
  that `startHeartbeat` overwrites without clearing stays counted as running.
- Transport: `fetch`, the `AbortController` timeout, the dynamic import of the simulator
  and the environment-based choice in `makeRequest` are left out. Each call's outcome is a
  parameter, and `AmpsClientModel.ClientRequestsRoute` connects the client's requests to
  the simulator's routing.
- Clock and identifiers: ISO timestamps are the integer clock. Ids made from `Date.now()`
  can collide, and a second session created at the same instant replaces the first.
- Randomness: `Math.random()` in shuffle is the `roll` parameter.
- Audio engines: the HTML audio element, Howler and expo-av are reduced to the outcomes
  they report (load, load error, end, status updates). Times and volumes are reals and
  never computed with. The millisecond-to-second conversions are left to the caller.
- JSON serialisation in the session and stream caches: values are stored as the strings
  they would serialise to.
- NaN from a missing numeric field in a request body is not modelled. Positions, volumes
  and durations are integers.
- Lookups through `UI_TEXT.contentTypes` with a name such as `constructor` would find an
  inherited property. The model's table holds only the 13 own keys.
- Logging, `alert` and `console` output are left out.
- The client's `connect` body fields `clientType` and `version` are not modelled. The
  simulator reads only `capabilities`.
- Aliasing: the simulator hands out its session objects and the client returns them to the
  store. The model copies values, so a later in-place change is not seen through an old
  reference.
- `parseInt` is exact on integers. Precision loss beyond 2^53 is not modelled.
- The store's auto-connect effect (hooks/useAmps.ts:300-305) is not modelled. It depends
  on an environment flag and calls `connect`, which is modelled.
- WebPlayer.WebPlayerProvider.AddToQueue: the source appends to the queue of the render
  it was called from. The model appends to the current queue, which differs only when two
  calls come before a re-render.
- WebPlayer.WebPlayerProvider.OnEndAsWritten: requires that, when the captured state
  says to advance and its queue is non-empty, the current queue is non-empty or shuffled.
  Otherwise the source stores NaN as the index, as for `WebPlayer.Reduce`.
- The mobile provider's cleanup effect and `unloadAsync` are assumed to succeed.
- MobilePlayer.MobilePlayerProvider.SeekTo, `SetVolume` and `ToggleMute`: on a loaded sound the
  library's call is assumed to succeed. Only the rejection on an unloaded sound is modelled.
- MockAmps.DeletePathRoutesToDequeue: requires an id without the letter 'j'. The join
  rule is checked first, and an id containing `/join` after a slash would be taken for a
  join. The plain `includes('/join')` test is modelled exactly in `MockAmps.RouteOf`.
- WebPlayer.Reduce: requires that a non-shuffled `NEXT_SONG` comes with a non-empty queue.
  On an empty queue the source computes a remainder by zero and stores NaN. Its only
  dispatch site, `playNext`, guards against this on the queue it reads. The end handler
  as written reads a captured queue instead (`WebPlayer.WebPlayerProvider.OnEndAsWritten`).
- LocalQueue.MusicPlayer.Play: assumes the audio element exists, as it does after the
  mount effect. The audio element's own volume and rate are not modelled.
- MobilePlayer.MobilePlayerProvider.PlaySong: states only the outcome once every await has
  settled. The intermediate states are not modelled. The same `SET_LOADING`/`SET_ERROR`
  order as in the web provider makes `isLoading` false while the sound is created.
- AmpsStore.AmpsStoreHook.FinishConnect: the store's catch branch, which records a thrown
  error's message, is not modelled because the client's `connect` never throws.

## Findings

| source | as written | input that shows it | evidently intended | confidence | as-written member | corrected member |
|---|---|---|---|---|---|---|
| hooks/useMusicPlayer.ts:55-57 | the 'ended' listener is registered once, in an effect with no dependencies, and calls the first render's `next`, which sees an empty queue and no current dance | queue [a, b] with a playing; a ends; playback stops and nothing is current (`LocalQueue.EndedListenerIgnoresQueue`) | the end of a track advances to the next queued dance, as `next` does | not executed | LocalQueue.MusicPlayer.AudioEndedAsWritten | LocalQueue.MusicPlayer.AudioEnded |
| frontend/src/lib/music-player-context.tsx:182-183 | `playSong` dispatches `SET_LOADING true` and then `SET_ERROR null`, and the reducer's `SET_ERROR` clears `isLoading` | any `playSong` call: `isLoading` is false while the sound loads (`WebPlayer.LoadingThenClearedError`) | `isLoading` is true from `playSong` until the sound reports load or load error | not executed | WebPlayer.WebPlayerProvider.PlaySongAsWritten | WebPlayer.WebPlayerProvider.PlaySong |
| frontend/src/lib/music-player-context.tsx:224-233 | the sound's `onend` handler, and the `playNext` it calls, read the state of the render in which `playSong` created the sound | `playSong(a, [a, b], 0)` while the queue is empty; `a` ends: the handler sees the empty queue, so playback stops (repeat none) or nothing happens (repeat all), and the index effect does not start `b` because the index did not change (`WebPlayer.CapturedEndStopsAfterFirst`) | the end of a song moves on through the queue as it is when the song ends | not executed | WebPlayer.WebPlayerProvider.OnEndAsWritten | WebPlayer.WebPlayerProvider.OnEnd |
| backend/src/services/memory-cache.ts:47-52 | `increment` rewrites the counter with no expiry, so the window `checkLimit` sets on the first call is dropped by the second | limit 1, window 60 s, calls at 0, 1 ms and 120 s: the third is refused although the window has passed (`Cache.RateLimitTraceAsWritten`, `Cache.RefusedForever`) | the window's expiry survives the increment and a new window opens after it (`Cache.WindowReopens`) | not executed | Cache.CheckLimitAsWritten | Cache.CheckLimit |
