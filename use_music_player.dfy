/** The local player hook: a queue of dances edited by pure sequence
    expressions, and the playing state that `play`, `pause`, `resume`,
    `next` and `previous` move. The audio element is reduced to the outcome
    of its `play()` promise, passed in as `playOk`. */
module LocalQueue {
  import opened Wrappers
  import opened Seqs
  import opened Text

  /** The fields of a dance the player reads: its id, English name, and the
      full-audio URL of its song (`song?.audioFull`), absent when the dance
      has no song or the song no URL. */
  datatype Dance = Dance(id: string, nameEng: string, audioFull: Option<string>)

  // ----- queue edits --------------------------------------------------------

  function IdIs(id: string): Dance -> bool {
    (d: Dance) => d.id == id
  }

  /** `prev.filter(song => song.id !== songId)` */
  function RemoveById(q: seq<Dance>, id: string): (r: seq<Dance>)
    ensures forall i :: 0 <= i < |r| ==> r[i].id != id && r[i] in q
    ensures forall i :: 0 <= i < |q| && q[i].id != id ==> q[i] in r
    ensures (forall i :: 0 <= i < |q| ==> q[i].id != id) ==> r == q
  {
    RemoveAll(q, IdIs(id))
  }

  /** Removal keeps the relative order of what stays: removing from a
      queue split in two is removing from each part. */
  lemma RemoveByIdKeepsOrder(a: seq<Dance>, b: seq<Dance>, id: string)
    ensures RemoveById(a + b, id) == RemoveById(a, id) + RemoveById(b, id)
  {
    RemoveAllAppend(a, b, IdIs(id));
  }

  lemma RemoveByIdIdempotent(q: seq<Dance>, id: string)
    ensures RemoveById(RemoveById(q, id), id) == RemoveById(q, id)
  {
    RemoveAllIdempotent(q, IdIs(id));
  }

  /** Appending a dance and removing its id again, when no queued dance
      had that id, gives back the queue. */
  lemma AddThenRemove(q: seq<Dance>, d: Dance)
    requires forall i :: 0 <= i < |q| ==> q[i].id != d.id
    ensures RemoveById(q + [d], d.id) == q
  {
    RemoveAllAppend(q, [d], IdIs(d.id));
    assert RemoveAll([d], IdIs(d.id)) == [];
  }

  /** `moveInQueue`: the first dance with the id trades places with its
      neighbour above ('up') or below (any other direction); an absent id
      or a move past either end leaves the queue as it was. */
  function MovedInQueue(q: seq<Dance>, id: string, direction: string): (r: seq<Dance>)
    ensures |r| == |q| && multiset(r) == multiset(q)
    ensures var i := FindIndex(q, IdIs(id)); var j := if direction == "up" then i - 1 else i + 1;
      if i == -1 || j < 0 || j >= |q| then r == q
      else r == Swap(q, i, j)
  {
    var i := FindIndex(q, IdIs(id));
    if i == -1 then q
    else
      var j := if direction == "up" then i - 1 else i + 1;
      if 0 <= j < |q| then Swap(q, i, j) else q
  }

  /** Moving a dance up and then down again restores the queue, unless it
      was already at the head (where 'up' does nothing and 'down' then
      moves it). */
  lemma {:induction false} UpThenDownRestores(q: seq<Dance>, id: string)
    requires FindIndex(q, IdIs(id)) != 0
    ensures MovedInQueue(MovedInQueue(q, id, "up"), id, "down") == q
  {
    var i := FindIndex(q, IdIs(id));
    if i > 0 {
      var up := Swap(q, i, i - 1);
      assert MovedInQueue(q, id, "up") == up;
      FindIndexAt(up, IdIs(id), i - 1);
      SwapTwice(q, i, i - 1);
    }
  }

  /** The dance `next` plays, or `None` when it stops: the one after the
      first queued dance with the current dance's id, the head of the queue
      when the current dance is not queued (or there is none), and nothing
      past the end or on an empty queue. */
  function NextChoice(q: seq<Dance>, current: Option<Dance>): (r: Option<Dance>)
    ensures q == [] ==> r == None
    ensures var i := FindIndex(q, IsCurrent(current));
      && (i == -1 && q != [] ==> r == Some(q[0]))
      && (0 <= i && i + 1 < |q| ==> r == Some(q[i + 1]))
      && (i + 1 >= |q| ==> r == None)
  {
    if |q| > 0 then
      var i := FindIndex(q, IsCurrent(current));
      if i + 1 < |q| then Some(q[i + 1]) else None
    else None
  }

  /** The dance `previous` plays, or `None` when it changes nothing: the
      one before the current dance, nothing at the head or when the current
      dance is not queued. */
  function PreviousChoice(q: seq<Dance>, current: Option<Dance>): (r: Option<Dance>)
    ensures var i := FindIndex(q, IsCurrent(current));
      && (i >= 1 ==> r == Some(q[i - 1]))
      && (i <= 0 ==> r == None)
  {
    if |q| > 0 then
      var i := FindIndex(q, IsCurrent(current));
      if i - 1 >= 0 then Some(q[i - 1]) else None
    else None
  }

  /** `song.id === currentSong?.id`: nothing matches when there is no
      current dance, since queued ids are strings and never `undefined`. */
  function IsCurrent(current: Option<Dance>): Dance -> bool {
    (d: Dance) => current.Some? && d.id == current.value.id
  }

  /** With distinct ids, going forward and then back returns to the dance
      that was playing. */
  lemma {:induction false} NextThenPrevious(q: seq<Dance>, i: nat)
    requires i + 1 < |q|
    requires forall a, b :: 0 <= a < b < |q| ==> q[a].id != q[b].id
    ensures NextChoice(q, Some(q[i])) == Some(q[i + 1])
    ensures PreviousChoice(q, Some(q[i + 1])) == Some(q[i])
  {
    FirstMatchIsOnlyMatch(q, i);
    FirstMatchIsOnlyMatch(q, i + 1);
  }

  lemma FirstMatchIsOnlyMatch(q: seq<Dance>, i: nat)
    requires i < |q|
    requires forall a, b :: 0 <= a < b < |q| ==> q[a].id != q[b].id
    ensures FindIndex(q, IsCurrent(Some(q[i]))) == i
  {
    assert IsCurrent(Some(q[i]))(q[i]);
  }

  // ----- the player ---------------------------------------------------------

  /** A URL `play` hands to the audio element: present, non-empty, and
      starting with "http". */
  predicate Playable(url: Option<string>) {
    url.Some? && url.value != "" && StartsWith(url.value, "http")
  }

  /** `currentSong?.song?.audioFull` is truthy: `resume` checks only this,
      not the "http" prefix `play` demands. */
  predicate HasUrl(current: Option<Dance>) {
    current.Some? && current.value.audioFull.Some? && current.value.audioFull.value != ""
  }

  class MusicPlayer {
    var currentSong: Option<Dance>
    var isPlaying: bool
    var currentTime: real
    var duration: real
    var volume: real
    var playbackRate: real
    var queue: seq<Dance>

    constructor()
      ensures currentSong == None && !isPlaying && queue == []
      ensures currentTime == 0.0 && duration == 0.0 && volume == 0.7 && playbackRate == 1.0
    {
      currentSong := None;
      isPlaying := false;
      currentTime := 0.0;
      duration := 0.0;
      volume := 0.7;
      playbackRate := 1.0;
      queue := [];
    }

    /** The dance becomes current at once; it is playing afterwards exactly
        when its URL is playable and the audio element's `play()`
        succeeds. */
    method Play(song: Dance, playOk: bool)
      modifies this
      ensures currentSong == Some(song)
      ensures isPlaying <==> Playable(song.audioFull) && playOk
      ensures queue == old(queue) && currentTime == old(currentTime) && duration == old(duration)
      ensures volume == old(volume) && playbackRate == old(playbackRate)
    {
      currentSong := Some(song);
      if Playable(song.audioFull) {
        isPlaying := playOk;
      } else {
        isPlaying := false;
      }
    }

    method Pause()
      modifies this
      ensures !isPlaying
      ensures currentSong == old(currentSong) && queue == old(queue) && currentTime == old(currentTime)
      ensures duration == old(duration) && volume == old(volume) && playbackRate == old(playbackRate)
    {
      if isPlaying {
        isPlaying := false;
      }
    }

    /** Resumes only a paused dance that has a URL. */
    method Resume(playOk: bool)
      modifies this
      ensures old(isPlaying) ==> isPlaying
      ensures !old(isPlaying) && HasUrl(currentSong) ==> isPlaying == playOk
      ensures !old(isPlaying) && !HasUrl(currentSong) ==> !isPlaying
      ensures currentSong == old(currentSong) && queue == old(queue) && currentTime == old(currentTime)
      ensures duration == old(duration) && volume == old(volume) && playbackRate == old(playbackRate)
    {
      if !isPlaying && HasUrl(currentSong) {
        isPlaying := playOk;
      }
    }

    method Next(playOk: bool)
      modifies this
      ensures NextChoice(old(queue), old(currentSong)).Some? ==>
        currentSong == NextChoice(old(queue), old(currentSong))
        && (isPlaying <==> Playable(currentSong.value.audioFull) && playOk)
      ensures NextChoice(old(queue), old(currentSong)).None? ==> currentSong == None && !isPlaying
      ensures queue == old(queue) && currentTime == old(currentTime) && duration == old(duration)
      ensures volume == old(volume) && playbackRate == old(playbackRate)
    {
      var choice := NextChoice(queue, currentSong);
      if choice.Some? {
        Play(choice.value, playOk);
      } else {
        isPlaying := false;
        currentSong := None;
      }
    }

    method Previous(playOk: bool)
      modifies this
      ensures PreviousChoice(old(queue), old(currentSong)).Some? ==>
        currentSong == PreviousChoice(old(queue), old(currentSong))
        && (isPlaying <==> Playable(currentSong.value.audioFull) && playOk)
      ensures PreviousChoice(old(queue), old(currentSong)).None? ==>
        currentSong == old(currentSong) && isPlaying == old(isPlaying)
      ensures queue == old(queue) && currentTime == old(currentTime) && duration == old(duration)
      ensures volume == old(volume) && playbackRate == old(playbackRate)
    {
      var choice := PreviousChoice(queue, currentSong);
      if choice.Some? {
        Play(choice.value, playOk);
      }
    }

    /** The audio element's 'ended' listener as registered: it was created
        on mount and calls the `next` of the first render, which sees the
        initial empty queue and no current dance, so the end of a track
        always stops playback. */
    method AudioEndedAsWritten()
      modifies this
      ensures currentSong == None && !isPlaying
      ensures queue == old(queue) && currentTime == old(currentTime) && duration == old(duration)
      ensures volume == old(volume) && playbackRate == old(playbackRate)
    {
      var choice := NextChoice([], None);
      assert choice == None;
      isPlaying := false;
      currentSong := None;
    }

    /** The end of a track advancing through the current queue, as `next`
        does. */
    method AudioEnded(playOk: bool)
      modifies this
      ensures NextChoice(old(queue), old(currentSong)).Some? ==>
        currentSong == NextChoice(old(queue), old(currentSong))
        && (isPlaying <==> Playable(currentSong.value.audioFull) && playOk)
      ensures NextChoice(old(queue), old(currentSong)).None? ==> currentSong == None && !isPlaying
      ensures queue == old(queue) && currentTime == old(currentTime) && duration == old(duration)
      ensures volume == old(volume) && playbackRate == old(playbackRate)
    {
      Next(playOk);
    }

    method AudioError()
      modifies this
      ensures !isPlaying && currentSong == old(currentSong) && queue == old(queue)
      ensures currentTime == old(currentTime) && duration == old(duration)
      ensures volume == old(volume) && playbackRate == old(playbackRate)
    {
      isPlaying := false;
    }

    method Seek(time: real)
      modifies this
      ensures currentTime == time
      ensures currentSong == old(currentSong) && isPlaying == old(isPlaying) && queue == old(queue)
      ensures duration == old(duration) && volume == old(volume) && playbackRate == old(playbackRate)
    {
      currentTime := time;
    }

    method SetVolume(newVolume: real)
      modifies this
      ensures volume == newVolume
      ensures currentSong == old(currentSong) && isPlaying == old(isPlaying) && queue == old(queue)
      ensures currentTime == old(currentTime) && duration == old(duration) && playbackRate == old(playbackRate)
    {
      volume := newVolume;
    }

    method SetPlaybackRate(rate: real)
      modifies this
      ensures playbackRate == rate
      ensures currentSong == old(currentSong) && isPlaying == old(isPlaying) && queue == old(queue)
      ensures currentTime == old(currentTime) && duration == old(duration) && volume == old(volume)
    {
      playbackRate := rate;
    }

    method AddToQueue(song: Dance)
      modifies this
      ensures queue == old(queue) + [song] && |queue| == |old(queue)| + 1
      ensures currentSong == old(currentSong) && isPlaying == old(isPlaying) && currentTime == old(currentTime)
      ensures duration == old(duration) && volume == old(volume) && playbackRate == old(playbackRate)
    {
      queue := queue + [song];
    }

    method RemoveFromQueue(songId: string)
      modifies this
      ensures queue == RemoveById(old(queue), songId)
      ensures currentSong == old(currentSong) && isPlaying == old(isPlaying) && currentTime == old(currentTime)
      ensures duration == old(duration) && volume == old(volume) && playbackRate == old(playbackRate)
    {
      queue := RemoveById(queue, songId);
    }

    method ClearQueue()
      modifies this
      ensures queue == []
      ensures currentSong == old(currentSong) && isPlaying == old(isPlaying) && currentTime == old(currentTime)
      ensures duration == old(duration) && volume == old(volume) && playbackRate == old(playbackRate)
    {
      queue := [];
    }

    method MoveInQueue(songId: string, direction: string)
      modifies this
      ensures queue == MovedInQueue(old(queue), songId, direction)
      ensures currentSong == old(currentSong) && isPlaying == old(isPlaying) && currentTime == old(currentTime)
      ensures duration == old(duration) && volume == old(volume) && playbackRate == old(playbackRate)
    {
      queue := MovedInQueue(queue, songId, direction);
    }
  }

  /** The end of a track with two dances queued and the first playing: the
      listener as registered stops, where `next` would play the second. */
  lemma EndedListenerIgnoresQueue(a: Dance, b: Dance)
    requires a.id != b.id
    ensures NextChoice([], None) == None
    ensures NextChoice([a, b], Some(a)) == Some(b)
  {
    assert IsCurrent(Some(a))(a);
    assert FindIndex([a, b], IsCurrent(Some(a))) == 0;
  }
}
