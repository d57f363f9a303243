/** The mobile player context: a reducer over a smaller player record (no
    queue), and the provider whose asynchronous operations issue actions to
    it around the audio library's sound object, reduced here to whether one
    exists. */
module MobilePlayer {
  import opened Wrappers

  datatype Song = Song(id: string, title: string, audioUrl: string)

  /** Times, duration and volume are the audio library's floating-point
      numbers, held as reals and never computed with. */
  datatype PlayerState = PlayerState(
    currentSong: Option<Song>, isPlaying: bool, currentTime: real, duration: real,
    volume: real, isMuted: bool, isLoading: bool, error: Option<string>)

  const InitialState: PlayerState := PlayerState(None, false, 0.0, 0.0, 0.7, false, false, None)

  datatype Action =
    | SetCurrentSong(song: Song)
    | Play
    | Pause
    | TogglePlay
    | SetCurrentTime(time: real)
    | SetDuration(duration: real)
    | SetVolume(volume: real)
    | ToggleMute
    | SetLoading(loading: bool)
    | SetError(error: Option<string>)
    | SeekTo(time: real)
    | Unknown(tag: string)

  datatype Field =
    | CurrentSongField | IsPlayingField | CurrentTimeField | DurationField
    | VolumeField | IsMutedField | IsLoadingField | ErrorField

  predicate Agree(s: PlayerState, t: PlayerState, f: Field) {
    match f
    case CurrentSongField => s.currentSong == t.currentSong
    case IsPlayingField => s.isPlaying == t.isPlaying
    case CurrentTimeField => s.currentTime == t.currentTime
    case DurationField => s.duration == t.duration
    case VolumeField => s.volume == t.volume
    case IsMutedField => s.isMuted == t.isMuted
    case IsLoadingField => s.isLoading == t.isLoading
    case ErrorField => s.error == t.error
  }

  /** The fields each action names. */
  function Changes(a: Action): set<Field> {
    match a
    case SetCurrentSong(_) => {CurrentSongField, ErrorField}
    case Play => {IsPlayingField}
    case Pause => {IsPlayingField}
    case TogglePlay => {IsPlayingField}
    case SetCurrentTime(_) => {CurrentTimeField}
    case SetDuration(_) => {DurationField}
    case SetVolume(_) => {VolumeField}
    case ToggleMute => {IsMutedField}
    case SetLoading(_) => {IsLoadingField}
    case SetError(_) => {ErrorField, IsLoadingField}
    case SeekTo(_) => {CurrentTimeField}
    case Unknown(_) => {}
  }

  /** The reducer is total; every field the action does not name keeps its
      value. */
  function Reduce(s: PlayerState, a: Action): (r: PlayerState)
    ensures forall f :: f !in Changes(a) ==> Agree(s, r, f)
  {
    match a
    case SetCurrentSong(song) => s.(currentSong := Some(song), error := None)
    case Play => s.(isPlaying := true)
    case Pause => s.(isPlaying := false)
    case TogglePlay => s.(isPlaying := !s.isPlaying)
    case SetCurrentTime(t) => s.(currentTime := t)
    case SetDuration(d) => s.(duration := d)
    case SetVolume(v) => s.(volume := v)
    case ToggleMute => s.(isMuted := !s.isMuted)
    case SetLoading(b) => s.(isLoading := b)
    case SetError(e) => s.(error := e, isLoading := false)
    case SeekTo(t) => s.(currentTime := t)
    case Unknown(_) => s
  }

  lemma InitialStateIsIdle()
    ensures !InitialState.isPlaying && !InitialState.isMuted && !InitialState.isLoading
    ensures InitialState.currentTime == 0.0 && InitialState.duration == 0.0
    ensures InitialState.error == None && InitialState.currentSong == None
  {
  }

  lemma TogglesAreInvolutions(s: PlayerState)
    ensures Reduce(Reduce(s, TogglePlay), TogglePlay) == s
    ensures Reduce(Reduce(s, ToggleMute), ToggleMute) == s
  {
  }

  lemma ErrorStopsLoadingAndSongClearsError(s: PlayerState, e: Option<string>, song: Song)
    ensures Reduce(s, SetError(e)).error == e && !Reduce(s, SetError(e)).isLoading
    ensures Reduce(s, SetCurrentSong(song)).currentSong == Some(song)
    ensures Reduce(s, SetCurrentSong(song)).error == None
  {
  }

  /** `SEEK_TO` and `SET_CURRENT_TIME` are the same transition, and each
      changes only the current time. */
  lemma SeekIsSetCurrentTime(s: PlayerState, t: real)
    ensures Reduce(s, SeekTo(t)) == Reduce(s, SetCurrentTime(t)) == s.(currentTime := t)
  {
  }

  lemma UnknownActionKeepsState(s: PlayerState, tag: string)
    ensures Reduce(s, Unknown(tag)) == s
  {
  }

  class MobilePlayerProvider {
    var state: PlayerState
    /** A sound object exists. */
    var hasSound: bool
    /** The sound object held has been unloaded: a later play unloaded it
        and then failed to create its successor, so the old object stays in
        place and every call on it rejects. */
    var soundUnloaded: bool

    constructor()
      ensures state == InitialState && !hasSound && !soundUnloaded
    {
      state := InitialState;
      hasSound := false;
      soundUnloaded := false;
    }

    /** A loaded sound is there to seek and set the volume on. */
    predicate SoundUsable()
      reads this
    {
      hasSound && !soundUnloaded
    }

    /** `playSong`, once every awaited step has settled. `created` is
        whether the audio library created the sound; a failure records
        "Failed to load audio" and keeps the previous sound object, which
        was unloaded first. Either way loading ends and the song is
        current. */
    method PlaySong(song: Song, created: bool)
      modifies this
      ensures state.currentSong == Some(song) && !state.isLoading
      ensures created ==> state.isPlaying && state.error == None && SoundUsable()
      ensures !created ==> state.isPlaying == old(state.isPlaying)
                           && state.error == Some("Failed to load audio") && hasSound == old(hasSound)
                           && soundUnloaded == (old(hasSound) || old(soundUnloaded))
      ensures state.currentTime == old(state.currentTime) && state.duration == old(state.duration)
      ensures state.volume == old(state.volume) && state.isMuted == old(state.isMuted)
    {
      state := Reduce(state, SetLoading(true));
      state := Reduce(state, SetError(None));
      if hasSound {
        soundUnloaded := true;
      }
      state := Reduce(state, SetCurrentSong(song));
      if created {
        hasSound := true;
        soundUnloaded := false;
        state := Reduce(state, Play);
        state := Reduce(state, SetLoading(false));
      } else {
        state := Reduce(state, SetError(Some("Failed to load audio")));
        state := Reduce(state, SetLoading(false));
      }
    }

    /** A status report from the sound: position and duration in seconds,
        and whether it has just finished (which pauses). */
    method OnPlaybackStatusUpdate(isLoaded: bool, position: real, duration: real, didJustFinish: bool)
      modifies this
      ensures hasSound == old(hasSound) && soundUnloaded == old(soundUnloaded)
      ensures !isLoaded ==> state == old(state)
      ensures isLoaded ==> state == old(state).(currentTime := position, duration := duration,
                                                isPlaying := !didJustFinish && old(state).isPlaying)
    {
      if isLoaded {
        state := Reduce(state, SetCurrentTime(position));
        state := Reduce(state, SetDuration(duration));
        if didJustFinish {
          state := Reduce(state, Pause);
        }
      }
    }

    /** Seeking needs a loaded sound: without a sound nothing is sent, and
        on an unloaded one the call rejects before the dispatch. */
    method SeekTo(time: real)
      modifies this
      ensures hasSound == old(hasSound) && soundUnloaded == old(soundUnloaded)
      ensures state == if SoundUsable() then old(state).(currentTime := time) else old(state)
    {
      if SoundUsable() {
        state := Reduce(state, Action.SeekTo(time));
      }
    }

    method SetVolume(volume: real)
      modifies this
      ensures hasSound == old(hasSound) && soundUnloaded == old(soundUnloaded)
      ensures state == if SoundUsable() then old(state).(volume := volume) else old(state)
    {
      if SoundUsable() {
        state := Reduce(state, Action.SetVolume(volume));
      }
    }

    /** Muting sends volume 0 to the sound and unmuting the stored volume;
        the returned value is what the sound is set to. On an unloaded
        sound the call rejects and the flag stays. */
    method ToggleMute() returns (soundVolume: Option<real>)
      modifies this
      ensures hasSound == old(hasSound) && soundUnloaded == old(soundUnloaded)
      ensures !SoundUsable() ==> state == old(state) && soundVolume == None
      ensures SoundUsable() ==> state == old(state).(isMuted := !old(state).isMuted)
      ensures SoundUsable() ==> soundVolume == Some(if old(state).isMuted then old(state).volume else 0.0)
    {
      soundVolume := None;
      if SoundUsable() {
        soundVolume := Some(if state.isMuted then state.volume else 0.0);
        state := Reduce(state, Action.ToggleMute);
      }
    }
  }
}
