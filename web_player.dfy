/** The web player context: a reducer over one player record, and the
    provider whose operations issue sequences of actions to it. The audio
    library is reduced to whether a sound is loaded and to the callbacks it
    makes (load, play, pause, end, load error), which become methods. */
module WebPlayer {
  import opened Wrappers

  datatype Song = Song(id: string, title: string, audioUrl: string)

  datatype RepeatMode = RepeatNone | RepeatOne | RepeatAll

  /** Times, duration and volume are the audio library's floating-point
      numbers, held here as reals and never computed with. */
  datatype PlayerState = PlayerState(
    currentSong: Option<Song>, isPlaying: bool, currentTime: real, duration: real,
    volume: real, isMuted: bool, isShuffled: bool, repeatMode: RepeatMode,
    queue: seq<Song>, currentIndex: int, isLoading: bool, error: Option<string>)

  const InitialState: PlayerState := PlayerState(
    None, false, 0.0, 0.0, 0.7, false, false, RepeatNone, [], 0, false, None)

  /** The actions; `NextSong` carries the `Math.random()` draw the shuffled
      case uses, and `Unknown` stands for any other action type. */
  datatype Action =
    | SetCurrentSong(song: Song)
    | Play
    | Pause
    | TogglePlay
    | SetCurrentTime(time: real)
    | SetDuration(duration: real)
    | SetVolume(volume: real)
    | ToggleMute
    | ToggleShuffle
    | SetRepeatMode(mode: RepeatMode)
    | SetQueue(songs: seq<Song>)
    | NextSong(roll: real)
    | PreviousSong
    | SetLoading(loading: bool)
    | SetError(error: Option<string>)
    | SeekTo(time: real)
    | Unknown(tag: string)

  datatype Field =
    | CurrentSongField | IsPlayingField | CurrentTimeField | DurationField | VolumeField
    | IsMutedField | IsShuffledField | RepeatModeField | QueueField | CurrentIndexField
    | IsLoadingField | ErrorField

  /** Two states hold the same value in field `f`. */
  predicate Agree(s: PlayerState, t: PlayerState, f: Field) {
    match f
    case CurrentSongField => s.currentSong == t.currentSong
    case IsPlayingField => s.isPlaying == t.isPlaying
    case CurrentTimeField => s.currentTime == t.currentTime
    case DurationField => s.duration == t.duration
    case VolumeField => s.volume == t.volume
    case IsMutedField => s.isMuted == t.isMuted
    case IsShuffledField => s.isShuffled == t.isShuffled
    case RepeatModeField => s.repeatMode == t.repeatMode
    case QueueField => s.queue == t.queue
    case CurrentIndexField => s.currentIndex == t.currentIndex
    case IsLoadingField => s.isLoading == t.isLoading
    case ErrorField => s.error == t.error
  }

  /** The fields each action names. */
  function Changes(a: Action): set<Field> {
    match a
    case SetCurrentSong(_) => {CurrentSongField, ErrorField}
    case Play => {IsPlayingField}
    case Pause => {IsPlayingField}
    case TogglePlay => {IsPlayingField}
    case SetCurrentTime(_) => {CurrentTimeField}
    case SetDuration(_) => {DurationField}
    case SetVolume(_) => {VolumeField}
    case ToggleMute => {IsMutedField}
    case ToggleShuffle => {IsShuffledField}
    case SetRepeatMode(_) => {RepeatModeField}
    case SetQueue(_) => {QueueField, CurrentIndexField}
    case NextSong(_) => {CurrentIndexField}
    case PreviousSong => {CurrentIndexField}
    case SetLoading(_) => {IsLoadingField}
    case SetError(_) => {ErrorField, IsLoadingField}
    case SeekTo(_) => {CurrentTimeField}
    case Unknown(_) => {}
  }

  /** JavaScript's `%` on a non-negative divisor: the remainder takes the
      sign of the dividend. */
  function JsRem(a: int, b: nat): (r: int)
    requires b > 0
    ensures a >= 0 ==> r == a % b && 0 <= r < b
    ensures a < 0 ==> -(b as int) < r <= 0
  {
    if a >= 0 then a % b else -((-a) % b)
  }

  /** `Math.floor(roll * n)` */
  function ShuffleIndex(roll: real, n: nat): (r: int)
    requires 0.0 <= roll < 1.0
    ensures n > 0 ==> 0 <= r < n
    ensures n == 0 ==> r == 0
  {
    var m := n as real;
    var x := roll * m;
    assert 0.0 <= x && (n > 0 ==> x < m) by {
      assert roll * m + (1.0 - roll) * m == m;
      if n > 0 {
        assert (1.0 - roll) * m > 0.0;
      }
    }
    x.Floor
  }

  /** The reducer. Its only precondition is the one under which the
      source's result is a number: a non-shuffled `NEXT_SONG` on an empty
      queue takes a remainder by zero. The frame: every field the action
      does not name keeps its value. */
  function Reduce(s: PlayerState, a: Action): (r: PlayerState)
    requires a.NextSong? ==> 0.0 <= a.roll < 1.0 && (s.isShuffled || |s.queue| > 0)
    ensures forall f :: f !in Changes(a) ==> Agree(s, r, f)
  {
    match a
    case SetCurrentSong(song) => s.(currentSong := Some(song), error := None)
    case Play => s.(isPlaying := true)
    case Pause => s.(isPlaying := false)
    case TogglePlay => s.(isPlaying := !s.isPlaying)
    case SetCurrentTime(t) => s.(currentTime := t)
    case SetDuration(d) => s.(duration := d)
    case SetVolume(v) => s.(volume := v)
    case ToggleMute => s.(isMuted := !s.isMuted)
    case ToggleShuffle => s.(isShuffled := !s.isShuffled)
    case SetRepeatMode(m) => s.(repeatMode := m)
    case SetQueue(songs) => s.(queue := songs, currentIndex := 0)
    case NextSong(roll) =>
      var next := if s.isShuffled then ShuffleIndex(roll, |s.queue|)
                  else JsRem(s.currentIndex + 1, |s.queue|);
      s.(currentIndex := next)
    case PreviousSong =>
      s.(currentIndex := if s.currentIndex == 0 then |s.queue| - 1 else s.currentIndex - 1)
    case SetLoading(b) => s.(isLoading := b)
    case SetError(e) => s.(error := e, isLoading := false)
    case SeekTo(t) => s.(currentTime := t)
    case Unknown(_) => s
  }

  /** The index points into the queue, or is 0 when the queue is empty. */
  predicate IndexInRange(s: PlayerState) {
    0 <= s.currentIndex && (if |s.queue| == 0 then s.currentIndex == 0 else s.currentIndex < |s.queue|)
  }

  /** What the provider guarantees of each action it dispatches: `NEXT_SONG`
      and `PREVIOUS_SONG` only on a non-empty queue, with a draw in [0, 1). */
  predicate Dispatchable(s: PlayerState, a: Action) {
    && (a.NextSong? ==> 0.0 <= a.roll < 1.0 && |s.queue| > 0)
    && (a.PreviousSong? ==> |s.queue| > 0)
  }

  lemma ReduceKeepsIndexInRange(s: PlayerState, a: Action)
    requires IndexInRange(s) && Dispatchable(s, a)
    ensures IndexInRange(Reduce(s, a))
  {
  }

  /** Non-shuffled `NEXT_SONG` wraps from the last entry to the first. */
  lemma NextWrapsAround(s: PlayerState, roll: real)
    requires !s.isShuffled && |s.queue| > 0 && s.currentIndex == |s.queue| - 1 && 0.0 <= roll < 1.0
    ensures Reduce(s, NextSong(roll)).currentIndex == 0
  {
  }

  /** Non-shuffled `NEXT_SONG` from an index inside the queue moves one
      place on, wrapping from the last place to the first. */
  lemma NextStep(s: PlayerState, roll: real)
    requires !s.isShuffled && 0 <= s.currentIndex < |s.queue| && 0.0 <= roll < 1.0
    ensures Reduce(s, NextSong(roll))
         == s.(currentIndex := if s.currentIndex + 1 < |s.queue| then s.currentIndex + 1 else 0)
  {
    assert JsRem(s.currentIndex + 1, |s.queue|)
        == if s.currentIndex + 1 < |s.queue| then s.currentIndex + 1 else 0;
  }

  /** Non-shuffled `NEXT_SONG` and `PREVIOUS_SONG` undo each other from any
      index inside the queue. */
  lemma NextAndPreviousAreInverse(s: PlayerState, roll: real)
    requires !s.isShuffled && 0 <= s.currentIndex < |s.queue| && 0.0 <= roll < 1.0
    ensures Reduce(Reduce(s, NextSong(roll)), PreviousSong).currentIndex == s.currentIndex
    ensures Reduce(Reduce(s, PreviousSong), NextSong(roll)).currentIndex == s.currentIndex
  {
    var n := |s.queue|;
    var i := s.currentIndex;
    NextStep(s, roll);
    var p := if i == 0 then n - 1 else i - 1;
    var u := s.(currentIndex := p);
    assert Reduce(s, PreviousSong) == u;
    NextStep(u, roll);
  }

  lemma TogglesAreInvolutions(s: PlayerState)
    ensures Reduce(Reduce(s, TogglePlay), TogglePlay) == s
    ensures Reduce(Reduce(s, ToggleMute), ToggleMute) == s
    ensures Reduce(Reduce(s, ToggleShuffle), ToggleShuffle) == s
  {
  }

  lemma ErrorStopsLoadingAndSongClearsError(s: PlayerState, e: Option<string>, song: Song)
    ensures Reduce(s, SetError(e)).error == e && !Reduce(s, SetError(e)).isLoading
    ensures Reduce(s, SetCurrentSong(song)).currentSong == Some(song)
    ensures Reduce(s, SetCurrentSong(song)).error == None
  {
  }

  /** `SET_ERROR` clears the loading flag, so loading then clearing the
      error leaves the player not loading; the other order keeps it. */
  lemma LoadingThenClearedError(s: PlayerState)
    ensures !Reduce(Reduce(s, SetLoading(true)), SetError(None)).isLoading
    ensures Reduce(Reduce(s, SetError(None)), SetLoading(true)).isLoading
  {
  }

  lemma UnknownActionKeepsState(s: PlayerState, tag: string)
    ensures Reduce(s, Unknown(tag)) == s
  {
  }

  /** The end handler's own test for moving on: not repeat-one, and
      either repeat-all or an index before the last. */
  predicate Advances(c: PlayerState) {
    c.repeatMode != RepeatOne && (c.repeatMode == RepeatAll || c.currentIndex < |c.queue| - 1)
  }

  /** What the end of a sound does to the state `s`, when the handler
      decides on the state `c`: repeat-one replays the sound, advancing
      dispatches `NEXT_SONG` (only if `c`'s queue is non-empty), otherwise
      playing stops. */
  function EndOutcome(c: PlayerState, s: PlayerState, roll: real): PlayerState
    requires 0.0 <= roll < 1.0
    requires Advances(c) && |c.queue| > 0 ==> s.isShuffled || |s.queue| > 0
  {
    if c.repeatMode == RepeatOne then s
    else if Advances(c) then (if |c.queue| > 0 then Reduce(s, NextSong(roll)) else s)
    else Reduce(s, Pause)
  }

  /** Playing a song together with a new queue, from a state whose queue
      was empty, leaves the end handler deciding on that empty queue: when
      the song ends, playback stops (repeat none) or nothing happens
      (repeat all), and the index effect does not start the next song since
      the index did not change. Deciding on the current state moves on to
      the second song. */
  lemma CapturedEndStopsAfterFirst(a: Song, b: Song, c: PlayerState, s: PlayerState, roll: real)
    requires 0.0 <= roll < 1.0
    requires c.queue == [] && IndexInRange(c) && c.repeatMode == s.repeatMode && s.repeatMode != RepeatOne
    requires s.queue == [a, b] && s.currentIndex == 0 && !s.isShuffled
    ensures EndOutcome(c, s, roll).currentIndex == 0
    ensures s.repeatMode == RepeatNone ==> EndOutcome(c, s, roll) == s.(isPlaying := false)
    ensures s.repeatMode == RepeatAll ==> EndOutcome(c, s, roll) == s
    ensures EndOutcome(s, s, roll) == s.(currentIndex := 1)
  {
    NextStep(s, roll);
  }

  class WebPlayerProvider {
    var state: PlayerState
    /** `howlRef.current` is set: a sound has been created. */
    var soundLoaded: bool
    /** The state the sound's `onend` handler reads: the handler and the
        `playNext` it calls are closures over the render in which
        `playSong` created the sound, so they see the state of that render
        and not the current one. */
    var endState: PlayerState

    predicate Valid()
      reads this
    {
      IndexInRange(state) && IndexInRange(endState)
    }

    constructor()
      ensures Valid() && state == InitialState && !soundLoaded && endState == InitialState
    {
      state := InitialState;
      soundLoaded := false;
      endState := InitialState;
    }

    /** The sound and the state its handlers captured stay as they were. */
    twostate predicate SoundKept()
      reads this
    {
      soundLoaded == old(soundLoaded) && endState == old(endState)
    }

    /** `playSong(song, queue?, index?)` as written: it sets loading, then
        clears the error (which also clears loading), installs the queue
        (index 0) when one is given, and makes the song current unless a
        queue comes without an index. The sound is loading afterwards while
        `isLoading` is false. */
    method PlaySongAsWritten(song: Song, queue: Option<seq<Song>>, index: Option<int>)
      requires Valid()
      modifies this
      ensures Valid() && soundLoaded && endState == old(state)
      ensures !state.isLoading && state.error == None
      ensures queue.Some? ==> state.queue == queue.value && state.currentIndex == 0
      ensures queue.None? ==> state.queue == old(state.queue) && state.currentIndex == old(state.currentIndex)
      ensures state.currentSong == if queue.Some? && index.None? then old(state.currentSong) else Some(song)
      ensures state.isPlaying == old(state.isPlaying) && state.currentTime == old(state.currentTime)
      ensures state.duration == old(state.duration) && state.volume == old(state.volume)
      ensures state.isMuted == old(state.isMuted) && state.isShuffled == old(state.isShuffled)
      ensures state.repeatMode == old(state.repeatMode)
    {
      endState := state;
      state := Reduce(state, SetLoading(true));
      state := Reduce(state, SetError(None));
      if queue.Some? {
        state := Reduce(state, SetQueue(queue.value));
        if index.Some? {
          state := Reduce(state, SetCurrentSong(song));
        }
      } else {
        state := Reduce(state, SetCurrentSong(song));
      }
      soundLoaded := true;
    }

    /** `playSong` with its first two dispatches in the order that keeps
        the loading flag: the error is cleared before loading is set, so
        `isLoading` stays true until the sound reports it has loaded or
        failed. Everything else is as written. */
    method PlaySong(song: Song, queue: Option<seq<Song>>, index: Option<int>)
      requires Valid()
      modifies this
      ensures Valid() && soundLoaded && endState == old(state)
      ensures state.isLoading && state.error == None
      ensures queue.Some? ==> state.queue == queue.value && state.currentIndex == 0
      ensures queue.None? ==> state.queue == old(state.queue) && state.currentIndex == old(state.currentIndex)
      ensures state.currentSong == if queue.Some? && index.None? then old(state.currentSong) else Some(song)
      ensures state.isPlaying == old(state.isPlaying) && state.currentTime == old(state.currentTime)
      ensures state.duration == old(state.duration) && state.volume == old(state.volume)
      ensures state.isMuted == old(state.isMuted) && state.isShuffled == old(state.isShuffled)
      ensures state.repeatMode == old(state.repeatMode)
    {
      endState := state;
      state := Reduce(state, SetError(None));
      state := Reduce(state, SetLoading(true));
      if queue.Some? {
        state := Reduce(state, SetQueue(queue.value));
        if index.Some? {
          state := Reduce(state, SetCurrentSong(song));
        }
      } else {
        state := Reduce(state, SetCurrentSong(song));
      }
      soundLoaded := true;
    }

    /** The sound finished loading: loading stops, the duration is
        recorded and playing starts. */
    method OnLoad(duration: real)
      requires Valid()
      modifies this
      ensures Valid() && SoundKept()
      ensures state == old(state).(isLoading := false, duration := duration, isPlaying := true)
    {
      state := Reduce(state, SetLoading(false));
      state := Reduce(state, SetDuration(duration));
      state := Reduce(state, Play);
    }

    method OnLoadError()
      requires Valid()
      modifies this
      ensures Valid() && SoundKept()
      ensures state == old(state).(error := Some("Failed to load audio"), isLoading := false)
    {
      state := Reduce(state, SetError(Some("Failed to load audio")));
      state := Reduce(state, SetLoading(false));
    }

    /** `onend` as written: it reads the repeat mode, index and queue
        captured when the sound was created (`endState`) and dispatches to
        the current state. Repeat-one replays the sound (no state change);
        when the captured state says to advance, `NEXT_SONG` is dispatched
        if the captured queue is non-empty; otherwise playing stops. */
    method OnEndAsWritten(roll: real)
      requires Valid() && 0.0 <= roll < 1.0
      requires Advances(endState) && |endState.queue| > 0 ==> state.isShuffled || |state.queue| > 0
      modifies this
      ensures Valid() && SoundKept()
      ensures state == EndOutcome(endState, old(state), roll)
      ensures endState.repeatMode == RepeatOne ==> state == old(state)
      ensures Advances(endState) ==>
        state == (if |endState.queue| > 0 then Reduce(old(state), NextSong(roll)) else old(state))
      ensures endState.repeatMode == RepeatNone && endState.currentIndex >= |endState.queue| - 1
              ==> state == old(state).(isPlaying := false)
    {
      if endState.repeatMode == RepeatOne {
      } else if endState.repeatMode == RepeatAll || endState.currentIndex < |endState.queue| - 1 {
        if |endState.queue| > 0 {
          if |state.queue| > 0 {
            ReduceKeepsIndexInRange(state, NextSong(roll));
          }
          state := Reduce(state, NextSong(roll));
        }
      } else {
        state := Reduce(state, Pause);
      }
    }

    /** The end of the sound decided on the current state: repeat-one
        replays it (no state change), repeat-all or a non-last index
        advances, otherwise playing stops. */
    method OnEnd(roll: real)
      requires Valid() && 0.0 <= roll < 1.0
      modifies this
      ensures Valid() && SoundKept()
      ensures state == EndOutcome(old(state), old(state), roll)
      ensures old(state).repeatMode == RepeatOne ==> state == old(state)
      ensures Advances(old(state)) ==>
        state == (if |old(state).queue| > 0 then Reduce(old(state), NextSong(roll)) else old(state))
      ensures old(state).repeatMode == RepeatNone && old(state).currentIndex >= |old(state).queue| - 1
              ==> state == old(state).(isPlaying := false)
    {
      if state.repeatMode == RepeatOne {
      } else if state.repeatMode == RepeatAll || state.currentIndex < |state.queue| - 1 {
        PlayNext(roll);
      } else {
        state := Reduce(state, Pause);
      }
    }

    /** The effect run when the index or the queue changes, as written: the
        song at the index is played, by the `playSong` as written, when it
        is not already the current one, so `isLoading` is false while it
        loads. */
    method IndexEffectAsWritten()
      requires Valid()
      modifies this
      ensures Valid()
      ensures var s := old(state);
        if |s.queue| > 0 && s.currentIndex < |s.queue|
           && (s.currentSong.None? || s.queue[s.currentIndex].id != s.currentSong.value.id)
        then state == s.(isLoading := false, error := None, currentSong := Some(s.queue[s.currentIndex]))
             && soundLoaded && endState == s
        else state == s && SoundKept()
    {
      if |state.queue| > 0 && state.currentIndex < |state.queue| {
        var song := state.queue[state.currentIndex];
        if state.currentSong.None? || song.id != state.currentSong.value.id {
          PlaySongAsWritten(song, None, None);
        }
      }
    }

    /** The same effect calling the corrected `PlaySong`: the song it
        starts is marked loading. */
    method IndexEffect()
      requires Valid()
      modifies this
      ensures Valid()
      ensures var s := old(state);
        if |s.queue| > 0 && s.currentIndex < |s.queue|
           && (s.currentSong.None? || s.queue[s.currentIndex].id != s.currentSong.value.id)
        then state == s.(isLoading := true, error := None, currentSong := Some(s.queue[s.currentIndex]))
             && soundLoaded && endState == s
        else state == s && SoundKept()
    {
      if |state.queue| > 0 && state.currentIndex < |state.queue| {
        var song := state.queue[state.currentIndex];
        if state.currentSong.None? || song.id != state.currentSong.value.id {
          PlaySong(song, None, None);
        }
      }
    }

    method PlayNext(roll: real)
      requires Valid() && 0.0 <= roll < 1.0
      modifies this
      ensures Valid() && SoundKept()
      ensures state == if |old(state).queue| > 0 then Reduce(old(state), NextSong(roll)) else old(state)
    {
      if |state.queue| > 0 {
        ReduceKeepsIndexInRange(state, NextSong(roll));
        state := Reduce(state, NextSong(roll));
      }
    }

    method PlayPrevious()
      requires Valid()
      modifies this
      ensures Valid() && SoundKept()
      ensures state == if |old(state).queue| > 0 then Reduce(old(state), PreviousSong) else old(state)
    {
      if |state.queue| > 0 {
        ReduceKeepsIndexInRange(state, PreviousSong);
        state := Reduce(state, PreviousSong);
      }
    }

    /** Seeking needs a sound; without one nothing happens. */
    method SeekTo(time: real)
      requires Valid()
      modifies this
      ensures Valid() && SoundKept()
      ensures state == if soundLoaded then old(state).(currentTime := time) else old(state)
    {
      if soundLoaded {
        state := Reduce(state, Action.SeekTo(time));
      }
    }

    method SetVolume(volume: real)
      requires Valid()
      modifies this
      ensures Valid() && SoundKept()
      ensures state == old(state).(volume := volume)
    {
      state := Reduce(state, Action.SetVolume(volume));
    }

    method ToggleMute()
      requires Valid()
      modifies this
      ensures Valid() && SoundKept()
      ensures state == old(state).(isMuted := !old(state).isMuted)
    {
      state := Reduce(state, Action.ToggleMute);
    }

    method ToggleShuffle()
      requires Valid()
      modifies this
      ensures Valid() && SoundKept()
      ensures state == old(state).(isShuffled := !old(state).isShuffled)
    {
      state := Reduce(state, Action.ToggleShuffle);
    }

    method SetRepeatMode(mode: RepeatMode)
      requires Valid()
      modifies this
      ensures Valid() && SoundKept()
      ensures state == old(state).(repeatMode := mode)
    {
      state := Reduce(state, Action.SetRepeatMode(mode));
    }

    /** Appending goes through `SET_QUEUE`, so the index returns to 0. */
    method AddToQueue(songs: seq<Song>)
      requires Valid()
      modifies this
      ensures Valid() && SoundKept()
      ensures state == old(state).(queue := old(state).queue + songs, currentIndex := 0)
    {
      state := Reduce(state, SetQueue(state.queue + songs));
    }

    method ClearQueue()
      requires Valid()
      modifies this
      ensures Valid() && SoundKept()
      ensures state == old(state).(queue := [], currentIndex := 0, isPlaying := false)
    {
      state := Reduce(state, SetQueue([]));
      state := Reduce(state, Pause);
    }
  }
}
