/**
 * The queue edits of the track options modal (components/TrackOptions.jsx):
 * "Play Next In queue", "Remove From Queue", "Add To Queue", and which of the
 * last two the modal offers.
 */
module TrackOptions {
  import opened Wrappers
  import opened Js
  import opened Media
  import opened NativePlayer
  import Queue

  /** The logical queue of the player context and the native player. */
  datatype Queues = Queues(logical: seq<Song>, native: Native)

  /** The first native position whose track id equals the song's `videoId`, or -1. */
  function NativeIndexOf(tracks: seq<Track>, song: Song): (i: int)
    ensures -1 <= i < |tracks|
    ensures i == -1 <==> forall k :: 0 <= k < |tracks| ==> tracks[k].id != song.videoId
    ensures i != -1 ==> tracks[i].id == song.videoId && forall k :: 0 <= k < i ==> tracks[k].id != song.videoId
  {
    FindIndex(tracks, (t: Track) => t.id == song.videoId)
  }

  /** Some entry of the logical queue matches the song on `id || videoId`. */
  predicate InQueue(logical: seq<Song>, song: Song) {
    exists k :: 0 <= k < |logical| && OptionsKey(logical[k]) == OptionsKey(song)
  }

  datatype QueueOption = RemoveOption | AddOption

  /** The queue option the modal renders for `song`. */
  function OfferedOption(logical: seq<Song>, song: Song): (r: QueueOption)
    ensures r == RemoveOption <==> InQueue(logical, song)
    ensures r == AddOption <==> !InQueue(logical, song)
  {
    if FindIndex(logical, (t: Song) => OptionsKey(t) == OptionsKey(song)) != -1 then RemoveOption else AddOption
  }

  /** `handleRemove(index)`: `splice(index, 1)` on the logical queue, counting a negative index from the end. */
  function HandleRemove(logical: seq<Song>, index: int): (r: seq<Song>)
    ensures 0 <= index < |logical| ==>
      |r| == |logical| - 1 && r[..index] == logical[..index] && r[index..] == logical[index + 1..]
    ensures index >= |logical| ==> r == logical
    ensures -|logical| <= index < 0 ==> r == RemoveAt(logical, |logical| + index)
    ensures index < -|logical| && |logical| > 0 ==> r == RemoveAt(logical, 0)
  {
    SpliceRemove(logical, index)
  }

  /** Removing at a valid index is undone by putting the entry back there. */
  lemma HandleRemoveUndone(logical: seq<Song>, index: int)
    requires 0 <= index < |logical|
    ensures InsertAt(HandleRemove(logical, index), index, logical[index]) == logical
  {
    assert HandleRemove(logical, index) == RemoveAt(logical, index);
    Queue.InsertRemoved(logical, index);
  }

  /** The "Remove From Queue" press: the native index of the song is used for both queues. */
  function RemoveFromQueue(q: Queues, song: Song): (r: Queues)
    ensures var i := NativeIndexOf(q.native.tracks, song);
      r.logical == HandleRemove(q.logical, i) && r.native == Remove(q.native, i)
    ensures NativeIndexOf(q.native.tracks, song) == -1 && |q.logical| > 0 ==>
      r.logical == q.logical[..|q.logical| - 1]
  {
    var i := NativeIndexOf(q.native.tracks, song);
    Queues(HandleRemove(q.logical, i), Remove(q.native, i))
  }

  /** The first logical entry matching the song on `id || videoId`, or -1. */
  function IndexOfKey(logical: seq<Song>, song: Song): (j: int)
    ensures -1 <= j < |logical|
    ensures j == -1 <==> !InQueue(logical, song)
    ensures j != -1 ==> OptionsKey(logical[j]) == OptionsKey(song)
    ensures j != -1 ==> forall k :: 0 <= k < j ==> OptionsKey(logical[k]) != OptionsKey(song)
  {
    FindIndex(logical, (t: Song) => OptionsKey(t) == OptionsKey(song))
  }

  /**
   * "Remove From Queue" as intended: the logical entry removed is the one the
   * option was offered for, and a song missing from the native queue leaves the
   * native queue alone.
   */
  function RemoveFromQueueFixed(q: Queues, song: Song): (r: Queues)
    ensures !InQueue(q.logical, song) ==> r.logical == q.logical
    ensures InQueue(q.logical, song) ==> |r.logical| == |q.logical| - 1
    ensures NativeIndexOf(q.native.tracks, song) == -1 ==> r.native == q.native
    ensures NativeIndexOf(q.native.tracks, song) != -1 ==>
      |r.native.tracks| == |q.native.tracks| - 1
  {
    var j := IndexOfKey(q.logical, song);
    var i := NativeIndexOf(q.native.tracks, song);
    Queues(if j == -1 then q.logical else RemoveAt(q.logical, j),
           if i == -1 then q.native else Remove(q.native, i))
  }

  /** The fixed removal drops only entries matching the song: every other entry survives, in order. */
  lemma RemoveFixedKeepsOthers(q: Queues, song: Song)
    ensures var keep := (t: Song) => OptionsKey(t) != OptionsKey(song);
      Filter(RemoveFromQueueFixed(q, song).logical, keep) == Filter(q.logical, keep)
  {
    var keep := (t: Song) => OptionsKey(t) != OptionsKey(song);
    var j := IndexOfKey(q.logical, song);
    if j != -1 {
      FilterRemoveAt(q.logical, j, keep);
    }
  }

  /**
   * As written, removing a song that is in the logical queue but not found in
   * the native queue (it has an `id` but no `videoId`) removes a different song:
   * the last one.
   */
  lemma RemoveFromQueueDropsWrongSong()
    ensures var b := Song(None, Some("b"), None, None, None, None, None, None, NoThumbnail, None, None);
      var a := Song(Some("a"), Some("a"), None, None, None, None, None, None, NoThumbnail, None, None);
      var tb := Track(Some("b"), None, None, None, NoThumbnail);
      var ta := Track(Some("a"), None, None, None, NoThumbnail);
      var q := Queues([b, a], Native([tb, ta], Some(0), true, Off));
      && OfferedOption(q.logical, b) == RemoveOption
      && RemoveFromQueue(q, b).logical == [b]
      && RemoveFromQueueFixed(q, b).logical == [a]
  {
    var b := Song(None, Some("b"), None, None, None, None, None, None, NoThumbnail, None, None);
    var a := Song(Some("a"), Some("a"), None, None, None, None, None, None, NoThumbnail, None, None);
    var tb := Track(Some("b"), None, None, None, NoThumbnail);
    var ta := Track(Some("a"), None, None, None, NoThumbnail);
    var q := Queues([b, a], Native([tb, ta], Some(0), true, Off));
    assert OptionsKey(q.logical[0]) == OptionsKey(b);
    assert NativeIndexOf(q.native.tracks, b) == -1;
    assert IndexOfKey(q.logical, b) == 0;
  }

  /** What `TrackPlayer.add(song)` receives: the song object itself, read as a track. */
  function RawTrack(song: Song): Track {
    Track(song.id, song.url, song.title, song.artist,
      if song.artwork.Some? then TextThumbnail(song.artwork.value) else NoThumbnail)
  }

  /** The "Add To Queue" press; the button is disabled while the logical queue is empty. */
  function AddToQueue(q: Queues, song: Song): (r: Queues)
    ensures |q.logical| == 0 ==> r == q
    ensures |q.logical| > 0 ==>
      && r.logical == q.logical + [song]
      && |r.native.tracks| == |q.native.tracks| + 1
      && r.native.tracks[..|q.native.tracks|] == q.native.tracks
      && r.native.active == q.native.active
  {
    if |q.logical| < 1 then q else Queues(q.logical + [song], Add(q.native, RawTrack(song)))
  }

  /** After adding a song the modal offers to remove it. */
  lemma AddThenOffersRemove(q: Queues, song: Song)
    requires |q.logical| > 0
    ensures OfferedOption(AddToQueue(q, song).logical, song) == RemoveOption
  {
    var l := AddToQueue(q, song).logical;
    assert OptionsKey(l[|l| - 1]) == OptionsKey(song);
  }

  /**
   * The "Play Next In queue" press: move the song from its native position to
   * the position just after the active index, in both queues. Nothing happens
   * when the song is not in the native queue or the native player has no active
   * track.
   */
  function PlayNextInQueue(q: Queues, song: Song): (r: Queues)
    ensures |q.logical| == 0 || q.native.active.None? || NativeIndexOf(q.native.tracks, song) == -1 ==> r == q
    ensures multiset(r.logical) == multiset(q.logical) && |r.logical| == |q.logical|
    ensures multiset(r.native.tracks) == multiset(q.native.tracks)
    ensures q.native.active.Some? && q.native.active.value < |q.native.tracks| ==>
      r.native.active.Some? && r.native.active.value < |r.native.tracks|
      && r.native.tracks[r.native.active.value] == q.native.tracks[q.native.active.value]
    ensures |q.logical| > 0 && q.native.active.Some? ==>
      var i := NativeIndexOf(q.native.tracks, song);
      var to := q.native.active.value + 1;
      i != -1 && to < |q.logical| && i < |q.logical| ==> r.logical[to] == q.logical[i]
  {
    if |q.logical| < 1 || q.native.active.None? then q
    else
      var i := NativeIndexOf(q.native.tracks, song);
      if i == -1 then q
      else
        var to := q.native.active.value + 1;
        Queues(Queue.MoveSong(q.logical, i, to), Move(q.native, i, to))
  }

  /** For a song after the playing track, "Play Next" makes it the track right after the playing one. */
  lemma PlayNextPutsSongNext(q: Queues, song: Song)
    requires |q.logical| > 0 && q.native.active.Some?
    requires NativeIndexOf(q.native.tracks, song) > q.native.active.value
    ensures var r := PlayNextInQueue(q, song);
      && r.native.active == q.native.active
      && r.native.tracks[q.native.active.value + 1].id == song.videoId
  {
    var a := q.native.active.value;
    var i := NativeIndexOf(q.native.tracks, song);
    var r := PlayNextInQueue(q, song);
    assert r.native == Move(q.native, i, a + 1);
    assert Queue.MovedIndex(i, a + 1, a) == a;
    Queue.MoveSongTracks(q.native.tracks, i, a + 1, i);
  }

  /**
   * As written, for a song before the playing track the move shifts the playing
   * track down by one, and the song lands two places after it: the track that
   * was next still plays next.
   */
  lemma PlayNextBeforeActiveMissesNext(q: Queues, song: Song)
    requires |q.logical| > 0 && q.native.active.Some? && q.native.active.value + 1 < |q.native.tracks|
    requires NativeIndexOf(q.native.tracks, song) != -1
    requires NativeIndexOf(q.native.tracks, song) < q.native.active.value
    ensures var a := q.native.active.value;
      var r := PlayNextInQueue(q, song);
      && r.native.active == Some(a - 1)
      && r.native.tracks[a - 1] == q.native.tracks[a]
      && r.native.tracks[a] == q.native.tracks[a + 1]
      && r.native.tracks[a + 1].id == song.videoId
  {
    var a := q.native.active.value;
    var i := NativeIndexOf(q.native.tracks, song);
    var r := PlayNextInQueue(q, song);
    assert r.native == Move(q.native, i, a + 1);
    assert Queue.MovedIndex(i, a + 1, a) == a - 1;
    Queue.MoveSongAt(q.native.tracks, i, a + 1, a - 1);
    Queue.MoveSongAt(q.native.tracks, i, a + 1, a);
    Queue.MoveSongAt(q.native.tracks, i, a + 1, a + 1);
  }

  /** As written, choosing the playing song moves it one place on; it keeps playing and the old next track comes before it. */
  lemma PlayNextOnPlayingSong(q: Queues, song: Song)
    requires |q.logical| > 0 && q.native.active.Some? && q.native.active.value + 1 < |q.native.tracks|
    requires NativeIndexOf(q.native.tracks, song) == q.native.active.value
    ensures var a := q.native.active.value;
      var r := PlayNextInQueue(q, song);
      && r.native.active == Some(a + 1)
      && r.native.tracks[a + 1] == q.native.tracks[a]
      && r.native.tracks[a] == q.native.tracks[a + 1]
  {
    var a := q.native.active.value;
    var r := PlayNextInQueue(q, song);
    var i := NativeIndexOf(q.native.tracks, song);
    assert i == a;
    assert |q.logical| >= 1;
    assert r.native == Move(q.native, a, a + 1);
    assert Queue.ValidMove(q.native.tracks, a, a + 1);
    assert Queue.MovedIndex(a, a + 1, a) == a + 1;
    assert r.native.active == Some(a + 1);
    Queue.MoveSongAt(q.native.tracks, a, a + 1, a);
    assert r.native.tracks[a] == q.native.tracks[a + 1];
    Queue.MoveSongAt(q.native.tracks, a, a + 1, a + 1);
    assert r.native.tracks[a + 1] == q.native.tracks[a];
  }

  /**
   * "Play Next In queue" as intended: the target is the position right after the
   * playing track once the song has been taken out, and choosing the playing
   * song itself changes nothing.
   */
  function PlayNextInQueueFixed(q: Queues, song: Song): (r: Queues)
    ensures |q.logical| == 0 || q.native.active.None? || NativeIndexOf(q.native.tracks, song) == -1 ==> r == q
    ensures q.native.active.Some? && NativeIndexOf(q.native.tracks, song) == q.native.active.value ==> r == q
    ensures multiset(r.logical) == multiset(q.logical) && |r.logical| == |q.logical|
    ensures multiset(r.native.tracks) == multiset(q.native.tracks)
  {
    if |q.logical| < 1 || q.native.active.None? then q
    else
      var a := q.native.active.value;
      var i := NativeIndexOf(q.native.tracks, song);
      if i == -1 || i == a then q
      else
        var to := if i < a then a else a + 1;
        Queues(Queue.MoveSong(q.logical, i, to), Move(q.native, i, to))
  }

  /** With the fixed press, the playing track keeps playing and the chosen song is the very next track. */
  lemma PlayNextFixedPutsSongNext(q: Queues, song: Song)
    requires |q.logical| > 0 && q.native.active.Some? && q.native.active.value < |q.native.tracks|
    requires NativeIndexOf(q.native.tracks, song) != -1
    requires NativeIndexOf(q.native.tracks, song) != q.native.active.value
    ensures var r := PlayNextInQueueFixed(q, song);
      && r.native.active.Some? && r.native.active.value + 1 < |r.native.tracks|
      && r.native.tracks[r.native.active.value] == q.native.tracks[q.native.active.value]
      && r.native.tracks[r.native.active.value + 1].id == song.videoId
  {
    var a := q.native.active.value;
    var i := NativeIndexOf(q.native.tracks, song);
    var to := if i < a then a else a + 1;
    Queue.MoveSongTracks(q.native.tracks, i, to, a);
    Queue.MoveSongTracks(q.native.tracks, i, to, i);
  }
}
