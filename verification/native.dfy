/**
 * An abstract stand-in for the native background player: an ordered queue of
 * tracks, the index of the active track, whether it is playing, and its repeat
 * mode. Only queue bookkeeping is modelled; there is no audio.
 *
 * The library's own behaviour is not visible here; the model assumes that `skip`
 * to an index outside the queue and `skipToNext` at the last track fail without
 * changing anything, that `move` behaves like the app's own reorder and keeps
 * the active track active, and that `remove` ignores an index outside the queue,
 * keeps the active track active when another one is removed, and otherwise
 * moves on to the following track.
 */
module NativePlayer {
  import opened Wrappers
  import opened Js
  import opened Media
  import Queue

  datatype RepeatMode = Off | TrackRepeat | QueueRepeat

  datatype Native = Native(tracks: seq<Track>, active: Option<nat>, playing: bool, mode: RepeatMode)

  /** `TrackPlayer.reset()`: empties the queue and stops. */
  function Reset(n: Native): Native {
    n.(tracks := [], active := None, playing := false)
  }

  /** Whether `TrackPlayer.skip(i)` succeeds. */
  predicate CanSkip(n: Native, i: int) {
    0 <= i < |n.tracks|
  }

  /** `TrackPlayer.skip(i)` followed by `play()`, when `CanSkip(n, i)`. */
  function SkipAndPlay(n: Native, i: nat): Native
    requires i < |n.tracks|
  {
    n.(active := Some(i), playing := true)
  }

  /** `TrackPlayer.skipToNext()`. */
  function SkipToNext(n: Native): Native {
    if n.active.Some? && n.active.value + 1 < |n.tracks| then n.(active := Some(n.active.value + 1))
    else n
  }

  /** `TrackPlayer.add(track)`: appends at the end. */
  function Add(n: Native, t: Track): Native {
    n.(tracks := n.tracks + [t])
  }

  /**
   * `TrackPlayer.remove(i)`. A track before the active one shifts the active
   * index down by one, so the same track stays active. Removing the active track
   * makes the following track active, and ends the queue when there is none.
   */
  function Remove(n: Native, i: int): (r: Native)
    ensures !(0 <= i < |n.tracks|) ==> r == n
    ensures 0 <= i < |n.tracks| ==> |r.tracks| == |n.tracks| - 1 && r.playing == n.playing && r.mode == n.mode
    ensures 0 <= i < |n.tracks| && n.active.Some? && n.active.value < |n.tracks| && n.active.value != i ==>
      r.active.Some? && r.active.value < |r.tracks| && r.tracks[r.active.value] == n.tracks[n.active.value]
    ensures 0 <= i < |n.tracks| && n.active == Some(i) ==>
      if i + 1 < |n.tracks| then r.active == Some(i) && r.tracks[i] == n.tracks[i + 1] else r.active.None?
  {
    if 0 <= i < |n.tracks| then
      var tracks := RemoveAt(n.tracks, i);
      var active :=
        match n.active
        case None => None
        case Some(a) =>
          if a > i then Some(a - 1)
          else if a < i then Some(a)
          else if i < |tracks| then Some(i)
          else None;
      n.(tracks := tracks, active := active)
    else n
  }

  /**
   * `TrackPlayer.move(from, to)`: the tracks are reordered like the app's own
   * `moveSong`, and the active track stays active wherever it moves.
   */
  function Move(n: Native, from: int, to: int): (r: Native)
    ensures !Queue.ValidMove(n.tracks, from, to) ==> r == n
    ensures Queue.ValidMove(n.tracks, from, to) ==>
      r.tracks == Queue.MoveSong(n.tracks, from, to) && r.playing == n.playing && r.mode == n.mode
    ensures Queue.ValidMove(n.tracks, from, to) && n.active.Some? && n.active.value < |n.tracks| ==>
      r.active.Some? && r.active.value < |r.tracks| && r.tracks[r.active.value] == n.tracks[n.active.value]
    ensures Queue.ValidMove(n.tracks, from, to) && n.active.Some? ==>
      r.active == Some(Queue.MovedIndex(from, to, n.active.value))
    ensures n.active.None? ==> r.active.None?
  {
    if !Queue.ValidMove(n.tracks, from, to) then n
    else
      match n.active
      case None => n.(tracks := Queue.MoveSong(n.tracks, from, to))
      case Some(a) =>
        var r := n.(tracks := Queue.MoveSong(n.tracks, from, to), active := Some(Queue.MovedIndex(from, to, a)));
        assert a < |n.tracks| ==> r.active.value < |r.tracks| && r.tracks[r.active.value] == n.tracks[a] by {
          if a < |n.tracks| {
            Queue.MoveSongTracks(n.tracks, from, to, a);
          }
        }
        r
  }

  /** `TrackPlayer.getTrack(i)`: `undefined` outside the queue. */
  function GetTrack(n: Native, i: nat): Option<Track> {
    if i < |n.tracks| then Some(n.tracks[i]) else None
  }
}
