/** The data exchanged between the session client and a playback
    controller (real or simulated): sessions, their queue and settings, the
    system status, catalogue content, and the requests themselves.
    Timestamps (`createdAt`, `updatedAt`, `addedAt`, `lastHeartbeat`) are
    clock readings in milliseconds rather than ISO strings. */
module AmpsTypes {
  import opened Wrappers

  datatype SessionStatus = Active | Inactive | Paused | Error

  /** The loaded track; `duration` and `position` are in seconds. */
  datatype Track = Track(id: string, title: string, artist: string, duration: int, position: int)

  datatype QueueItem = QueueItem(
    id: string, contentId: string, title: string, artist: string, duration: int,
    addedBy: string, addedAt: int, priority: int)

  datatype Settings = Settings(volume: int, shuffle: bool, repeat: bool)

  /** A `Partial<settings>` object: an absent field leaves the value it is
      spread over in place. */
  datatype SettingsPatch = SettingsPatch(volume: Option<int>, shuffle: Option<bool>, repeat: Option<bool>)

  /** `{ volume: 80, shuffle: false, repeat: false }`, the defaults both the
      client and the simulator spread a caller's settings over. */
  const DefaultSettings: Settings := Settings(80, false, false)

  /** `{ ...base, ...patch }` */
  function MergeSettings(base: Settings, patch: SettingsPatch): (r: Settings)
    ensures r.volume == patch.volume.GetOr(base.volume)
    ensures r.shuffle == patch.shuffle.GetOr(base.shuffle)
    ensures r.repeat == patch.repeat.GetOr(base.repeat)
  {
    Settings(patch.volume.GetOr(base.volume), patch.shuffle.GetOr(base.shuffle), patch.repeat.GetOr(base.repeat))
  }

  /** A complete settings object sent as a patch: every field present. */
  function AsPatch(s: Settings): SettingsPatch {
    SettingsPatch(Some(s.volume), Some(s.shuffle), Some(s.repeat))
  }

  /** The client already spreads the caller's settings over the defaults
      before sending them; the simulator spreading the result over the same
      defaults again changes nothing, so a session is created with exactly
      the settings the client computed. */
  lemma MergeTwiceIsMergeOnce(patch: SettingsPatch)
    ensures MergeSettings(DefaultSettings, AsPatch(MergeSettings(DefaultSettings, patch)))
         == MergeSettings(DefaultSettings, patch)
  {
  }

  datatype Session = Session(
    id: string, name: string, status: SessionStatus, currentTrack: Option<Track>,
    participants: int, queue: seq<QueueItem>, settings: Settings,
    createdAt: int, updatedAt: int)

  datatype DeviceState = Connected | Disconnected | DeviceError
  datatype StorageState = Available | Low | StorageError

  datatype SystemStatus = SystemStatus(
    connected: bool, version: string, audio: DeviceState, network: DeviceState,
    storage: StorageState, activeSessions: int, totalSessions: int, lastHeartbeat: int)

  datatype Content = Content(
    id: string, title: string, artist: string, duration: int, audioUrl: string,
    genre: Option<string>, year: Option<int>, bpm: Option<int>, key: Option<string>)

  /** A JSON request body. Every field a request can carry is present; a
      field the sender leaves out is represented by its empty value, which
      every reader of it treats as the source treats `undefined` (`||`
      fallbacks and unmatched `switch` cases). */
  datatype Body = Body(
    name: string, settings: Option<SettingsPatch>, action: string, position: int,
    volume: int, contentId: string, priority: int, capabilities: seq<string>,
    queueItemIds: seq<string>)

  const EmptyBody: Body := Body("", None, "", 0, 0, "", 0, [], [])

  /** One call on the transport: HTTP method, endpoint path, the bearer
      credential when the call is authenticated, and the body. */
  datatype Request = Request(httpMethod: string, endpoint: string, bearer: Option<string>, body: Option<Body>)
}
