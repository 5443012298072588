/**
 * trackPlayerUtils.js: the data the screens hand to the background playback
 * service (logical queue, user, index), and the prefetch that resolves one song
 * and appends it to the native queue unless it is already there.
 */
module ServiceData {
  import opened Wrappers
  import opened Js
  import opened Media
  import opened NativePlayer

  /** The module-level `currentQueue`, `userInfo` and `currentIndex`. */
  datatype Data = Data(queue: seq<Song>, user: Option<User>, index: int)

  /** `updateServiceData(queue, user, index)`, with absent arguments defaulted. */
  function UpdateServiceData(queue: Option<seq<Song>>, user: Option<User>, index: Option<int>): Data {
    Data(queue.GetOr([]), user, index.GetOr(0))
  }

  /** The service reads back exactly what was last handed over, with the defaults filled in. */
  lemma ServiceDataRoundTrip(queue: Option<seq<Song>>, user: Option<User>, index: Option<int>)
    ensures var d := UpdateServiceData(queue, user, index);
      && (queue.None? ==> d.queue == [])
      && (user.None? ==> d.user.None?)
      && (index.None? ==> d.index == 0)
      && (queue.Some? ==> d.queue == queue.value)
      && (user.Some? ==> d.user == user)
      && (index.Some? ==> d.index == index.value)
  {
  }

  /** Some track of the native queue has this `id`. */
  predicate HasId(tracks: seq<Track>, id: Option<string>) {
    exists k :: 0 <= k < |tracks| && tracks[k].id == id
  }

  /** How many tracks of the native queue have this `id`. */
  function CountId(tracks: seq<Track>, id: Option<string>): nat {
    if |tracks| == 0 then 0
    else CountId(tracks[..|tracks| - 1], id) + (if tracks[|tracks| - 1].id == id then 1 else 0)
  }

  lemma {:induction false} CountIdZero(tracks: seq<Track>, id: Option<string>)
    requires !HasId(tracks, id)
    ensures CountId(tracks, id) == 0
  {
    if |tracks| > 0 {
      var init := tracks[..|tracks| - 1];
      assert !HasId(init, id) by {
        forall k | 0 <= k < |init| ensures init[k].id != id {
          assert init[k] == tracks[k];
        }
      }
      CountIdZero(init, id);
    }
  }

  /** The track appended for `song` from the resolver's answer. */
  function NewTrack(song: Song, answer: Resolved): Track {
    var art := LastUrl(answer.thumbnails);
    Track(song.videoId, LastUrl(answer.adaptiveFormats), song.title, song.author,
      if Truthy(art) then TextThumbnail(art.value) else song.thumbnail)
  }

  /**
   * `fetchAndQueueNextTrack(song)`; `answer` is the resolver's `data.song`,
   * `None` when it returned none or threw.
   */
  function FetchAndQueueNextTrack(n: Native, song: Song, answer: Option<Resolved>): (r: Native)
    ensures HasId(n.tracks, song.videoId) ==> r == n
    ensures answer.None? ==> r == n
    ensures !HasId(n.tracks, song.videoId) && answer.Some? ==>
      && |r.tracks| == |n.tracks| + 1
      && r.tracks[..|n.tracks|] == n.tracks
      && r.tracks[|n.tracks|].id == song.videoId
      && r.tracks[|n.tracks|].url == LastUrl(answer.value.adaptiveFormats)
    ensures r.active == n.active && r.playing == n.playing && r.mode == n.mode
    ensures n.tracks <= r.tracks
  {
    if HasId(n.tracks, song.videoId) then n
    else match answer
      case None => n
      case Some(a) => Add(n, NewTrack(song, a))
  }

  /** A successful prefetch leaves exactly one track with the song's id in the native queue. */
  lemma FetchAddsExactlyOne(n: Native, song: Song, answer: Resolved)
    requires !HasId(n.tracks, song.videoId)
    ensures CountId(FetchAndQueueNextTrack(n, song, Some(answer)).tracks, song.videoId) == 1
  {
    var r := FetchAndQueueNextTrack(n, song, Some(answer));
    CountIdZero(n.tracks, song.videoId);
    assert r.tracks[..|r.tracks| - 1] == n.tracks;
  }

  /** After a successful prefetch a second one for the same song adds nothing. */
  lemma FetchIdempotent(n: Native, song: Song, answer: Resolved, again: Option<Resolved>)
    ensures var once := FetchAndQueueNextTrack(n, song, Some(answer));
      FetchAndQueueNextTrack(once, song, again) == once
  {
    var once := FetchAndQueueNextTrack(n, song, Some(answer));
    if !HasId(n.tracks, song.videoId) {
      assert once.tracks[|n.tracks|].id == song.videoId;
      assert HasId(once.tracks, song.videoId);
    }
  }
}
