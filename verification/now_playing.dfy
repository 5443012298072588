/**
 * The now-playing screen of components/Component.jsx: the logical queue, the
 * index of the current song in it, transport controls, track-change
 * reconciliation against the native player, the queue-ended reset, and the
 * repeat toggle. Each handler is one atomic step over an explicit state record.
 */
module NowPlaying {
  import opened Wrappers
  import opened Js
  import opened Media
  import opened NativePlayer
  import CachedData

  /**
   * `queue` is the logical queue, `index` the screen's `currentIndex`, `current`
   * the current song, `playing` the screen's `isPlaying`, `repeat` the repeat
   * flag, `recents` the stored recently-played list and `native` the native player.
   */
  datatype Player = Player(
    queue: seq<Song>,
    index: nat,
    current: Option<Song>,
    playing: bool,
    repeat: bool,
    recents: seq<Song>,
    native: Native)

  /** The state the screen keeps once nothing is playing. */
  predicate Idle(p: Player) {
    p.index == 0 && p.current.None? && !p.playing && p.native.tracks == []
  }

  /** `playNext`. */
  function PlayNext(p: Player): (r: Player)
    ensures p.index + 1 >= |p.queue| ==> Idle(r) && r.queue == p.queue && r.recents == p.recents
    ensures p.index + 1 < |p.queue| && CanSkip(p.native, p.index + 1) ==>
      && r.index == p.index + 1
      && r.current == Some(p.queue[p.index + 1])
      && r.playing && r.native.playing
      && r.native.active == Some(p.index + 1)
      && r.native.tracks == p.native.tracks
      && r.recents == CachedData.UpdateRecents(p.recents, p.queue[p.index + 1])
    ensures p.index + 1 < |p.queue| && !CanSkip(p.native, p.index + 1) ==> r == p
    ensures r.queue == p.queue && r.repeat == p.repeat
  {
    if p.index + 1 >= |p.queue| then
      p.(native := Reset(p.native), playing := false, current := None, index := 0)
    else if !CanSkip(p.native, p.index + 1) then
      p
    else
      var next := p.index + 1;
      p.(native := SkipAndPlay(p.native, next), index := next, current := Some(p.queue[next]),
         playing := true, recents := CachedData.UpdateRecents(p.recents, p.queue[next]))
  }

  /** `playPrev`. */
  function PlayPrev(p: Player): (r: Player)
    ensures p.index == 0 ==> r == p
    ensures p.index > 0 && CanSkip(p.native, p.index - 1) ==>
      && r.index == p.index - 1
      && r.current == At(p.queue, p.index - 1)
      && r.playing && r.native.playing
      && r.native.active == Some(p.index - 1)
      && r.native.tracks == p.native.tracks
      && (p.index - 1 < |p.queue| ==> r.recents == CachedData.UpdateRecents(p.recents, p.queue[p.index - 1]))
    ensures p.index > 0 && !CanSkip(p.native, p.index - 1) ==> r == p
    ensures r.queue == p.queue && r.repeat == p.repeat
  {
    if p.index <= 0 then p
    else if !CanSkip(p.native, p.index - 1) then p
    else
      var prev := p.index - 1;
      match At(p.queue, prev)
      case Some(song) =>
        p.(native := SkipAndPlay(p.native, prev), index := prev, current := Some(song),
           playing := true, recents := CachedData.UpdateRecents(p.recents, song))
      case None =>
        // there is no song at `prevIndex`; the model leaves the recently-played list as it was
        p.(native := SkipAndPlay(p.native, prev), index := prev, current := None, playing := true)
  }

  /** `playPause`: acts on what the native player reports, not on the screen's flag. */
  function PlayPause(p: Player): (r: Player)
    ensures r.native.playing == !p.native.playing
    ensures r.playing == r.native.playing
    ensures r.queue == p.queue && r.index == p.index && r.current == p.current
  {
    if p.native.playing then p.(native := p.native.(playing := false), playing := false)
    else p.(native := p.native.(playing := true), playing := true)
  }

  /** Two play/pause presses restore both the native playing state and the screen flag. */
  lemma PlayPauseTwice(p: Player)
    ensures var r := PlayPause(PlayPause(p));
      r.native == p.native && r.playing == p.native.playing
  {
  }

  /** The native repeat mode the repeat flag is mapped to. */
  function ModeFor(repeat: bool): (m: RepeatMode)
    ensures m != QueueRepeat
    ensures (m == TrackRepeat) == repeat
  {
    if repeat then TrackRepeat else Off
  }

  /** `toggleRepeat`. */
  function ToggleRepeat(p: Player): (r: Player)
    ensures r.repeat == !p.repeat
    ensures r.native.mode == (if r.repeat then TrackRepeat else Off)
    ensures r.native.tracks == p.native.tracks && r.native.active == p.native.active
    ensures r.queue == p.queue && r.index == p.index && r.current == p.current && r.playing == p.playing
  {
    p.(repeat := !p.repeat, native := p.native.(mode := ModeFor(!p.repeat)))
  }

  /** The queue-ended listener of the screen: reset everything. */
  function QueueEnded(p: Player): (r: Player)
    ensures Idle(r)
    ensures r.queue == p.queue && r.repeat == p.repeat && r.recents == p.recents
  {
    p.(native := Reset(p.native), playing := false, current := None, index := 0)
  }

  /** A second queue-ended event finds the player idle already and changes nothing. */
  lemma QueueEndedIdempotent(p: Player)
    ensures QueueEnded(QueueEnded(p)) == QueueEnded(p)
  {
  }

  /** The first position in the logical queue whose play key (`videoId`, else `id`) is `id`, or -1. */
  function IndexOfTrack(queue: seq<Song>, id: Option<string>): (i: int)
    ensures -1 <= i < |queue|
    ensures i == -1 <==> forall k :: 0 <= k < |queue| ==> PlayKey(queue[k]) != id
    ensures i != -1 ==> PlayKey(queue[i]) == id && forall k :: 0 <= k < i ==> PlayKey(queue[k]) != id
  {
    FindIndex(queue, (s: Song) => PlayKey(s) == id)
  }

  /** The native active track, if the native player reports one. */
  function ActiveTrack(n: Native): Option<Track> {
    if n.active.None? then None else GetTrack(n, n.active.value)
  }

  /** `handleTrackChange`. */
  function HandleTrackChange(p: Player): (r: Player)
    ensures r.queue == p.queue && r.native == p.native && r.repeat == p.repeat
    ensures ActiveTrack(p.native).None? ==> r == p
    ensures ActiveTrack(p.native).Some? ==>
      var i := IndexOfTrack(p.queue, ActiveTrack(p.native).value.id);
      if i != -1 && i != p.index then
        && r.index == i
        && r.current == Some(p.queue[i])
        && r.playing == p.native.playing
        && r.recents == CachedData.UpdateRecents(p.recents, p.queue[i])
      else r == p
  {
    match ActiveTrack(p.native)
    case None => p
    case Some(track) =>
      var i := IndexOfTrack(p.queue, track.id);
      if i != -1 && i != p.index then
        p.(index := i, current := Some(p.queue[i]), playing := p.native.playing,
           recents := CachedData.UpdateRecents(p.recents, p.queue[i]))
      else p
  }

  /** Once reconciled, the current index points at a song whose key is the native active track's id. */
  lemma HandleTrackChangeSyncs(p: Player)
    requires ActiveTrack(p.native).Some?
    requires IndexOfTrack(p.queue, ActiveTrack(p.native).value.id) != -1
    ensures var r := HandleTrackChange(p);
      r.index < |r.queue| && PlayKey(r.queue[r.index]) == ActiveTrack(p.native).value.id
  {
  }

  /** Delivering the same track-change event twice: the second delivery changes nothing. */
  lemma HandleTrackChangeIdempotent(p: Player)
    ensures HandleTrackChange(HandleTrackChange(p)) == HandleTrackChange(p)
  {
    var r := HandleTrackChange(p);
    if ActiveTrack(p.native).Some? {
      var i := IndexOfTrack(p.queue, ActiveTrack(p.native).value.id);
      assert ActiveTrack(r.native) == ActiveTrack(p.native);
      assert IndexOfTrack(r.queue, ActiveTrack(r.native).value.id) == i;
    }
  }

  /** `n` presses of next. */
  function NextTimes(p: Player, n: nat): Player
    decreases n
  {
    if n == 0 then p else NextTimes(PlayNext(p), n - 1)
  }

  /**
   * With every logical song loaded in the native player, pressing next
   * `|queue| - 1 - index` times reaches the last song.
   */
  lemma {:induction false} NextReachesLast(p: Player)
    requires p.index < |p.queue| <= |p.native.tracks|
    ensures var r := NextTimes(p, |p.queue| - 1 - p.index);
      r.index == |p.queue| - 1 && r.queue == p.queue && r.native.tracks == p.native.tracks
      && (p.index + 1 < |p.queue| ==> r.current == Some(p.queue[|p.queue| - 1]))
    decreases |p.queue| - p.index
  {
    if p.index + 1 < |p.queue| {
      var q := PlayNext(p);
      assert q.index == p.index + 1;
      NextReachesLast(q);
      assert |p.queue| - 1 - p.index == (|q.queue| - 1 - q.index) + 1;
    }
  }

  /** One more next at the last song empties the player. */
  lemma NextAtLastStops(p: Player)
    requires |p.queue| > 0 && p.index == |p.queue| - 1
    ensures Idle(PlayNext(p))
  {
  }

  /** Previous undoes a successful next. */
  lemma PrevUndoesNext(p: Player)
    requires p.index + 1 < |p.queue| && CanSkip(p.native, p.index + 1)
    requires p.current == At(p.queue, p.index)
    ensures var r := PlayPrev(PlayNext(p));
      r.index == p.index && r.current == p.current && r.queue == p.queue
  {
  }

  /** Toggling repeat twice restores the flag and leaves the native mode consistent with it. */
  lemma ToggleRepeatTwice(p: Player)
    ensures var r := ToggleRepeat(ToggleRepeat(p));
      r.repeat == p.repeat && r.native.mode == ModeFor(p.repeat)
  {
  }

  /** Queue `[A, B, C]` from the start: next twice plays C, once more is idle. */
  lemma ThreeSongScenario(a: Song, b: Song, c: Song, t: seq<Track>, rec: seq<Song>)
    requires |t| == 3
    ensures var p := Player([a, b, c], 0, Some(a), true, false, rec, Native(t, Some(0), true, Off));
      && NextTimes(p, 2).index == 2
      && NextTimes(p, 2).current == Some(c)
      && Idle(NextTimes(p, 3))
  {
    var p := Player([a, b, c], 0, Some(a), true, false, rec, Native(t, Some(0), true, Off));
    var p1 := PlayNext(p);
    var p2 := PlayNext(p1);
    assert p2.index == 2 && p2.current == Some(c);
    assert NextTimes(p, 2) == NextTimes(p2, 0);
    assert NextTimes(p, 3) == NextTimes(PlayNext(p2), 0);
  }
}
