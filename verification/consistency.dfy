/**
 * How the parts of the player agree with each other: a queue started by a tap
 * is found again by the track-change reconciliations of the screen and of the
 * background service, and the prefetch streams the same url the player picks.
 */
module Consistency {
  import opened Wrappers
  import opened Js
  import opened Media
  import CachedData
  import NowPlaying
  import PlayerService
  import TrackComponent
  import UserPlaylist
  import LocalSongs
  import ServiceData
  import Player
  import NativePlayer

  /** No two entries share a play key (`videoId`, else `id`). */
  predicate DistinctPlayKeys(q: seq<Song>) {
    forall j, k :: 0 <= j < k < |q| ==> PlayKey(q[j]) != PlayKey(q[k])
  }

  /** Every entry's play key is its `videoId`, as it is whenever the `videoId` is non-empty. */
  predicate KeyedByVideoId(q: seq<Song>) {
    forall k :: 0 <= k < |q| ==> PlayKey(q[k]) == q[k].videoId
  }

  /**
   * After a tap starts a queue at `songs[index]`, the screen's reconciliation
   * finds native track `k` at logical position `k`, which holds `songs[index + k]`;
   * the service's reconciliation does too when every entry is keyed by its `videoId`.
   */
  lemma TapThenReconcile(songs: seq<Song>, index: int, item: Song, api: string, user: Option<User>,
                         recents: seq<Song>, k: int)
    requires 0 <= index <= |songs|
    requires var r := TrackComponent.Play(songs, index, item, api, user, recents);
      DistinctPlayKeys(r.queue) && 0 <= k < |r.queue|
    ensures var r := TrackComponent.Play(songs, index, item, api, user, recents);
      && r.queue[k] == songs[index + k]
      && NowPlaying.IndexOfTrack(r.queue, r.tracks[k].id) == k
      && (KeyedByVideoId(r.queue) ==> PlayerService.IndexOfVideo(r.queue, r.tracks[k].id) == k)
  {
    var r := TrackComponent.Play(songs, index, item, api, user, recents);
    var key := PlayKey(r.queue[k]);
    assert forall j :: 0 <= j < |r.queue| && j != k ==> PlayKey(r.queue[j]) != key by {
      forall j | 0 <= j < |r.queue| && j != k ensures PlayKey(r.queue[j]) != key {
        if j < k {} else {}
      }
    }
  }

  /**
   * A tapped entry with an `id` but no `videoId` gets a native track carrying
   * that `id`: the screen finds it, the service, which matches on `videoId`
   * alone, does not.
   */
  lemma ServiceMissesSongWithoutVideoId(songs: seq<Song>, index: int, item: Song, api: string,
                                        user: Option<User>, recents: seq<Song>, k: int)
    requires 0 <= index <= |songs|
    requires var r := TrackComponent.Play(songs, index, item, api, user, recents);
      && DistinctPlayKeys(r.queue) && 0 <= k < |r.queue|
      && r.queue[k].videoId.None? && Truthy(r.queue[k].id)
      && forall j :: 0 <= j < |r.queue| ==> r.queue[j].videoId != r.queue[k].id
    ensures var r := TrackComponent.Play(songs, index, item, api, user, recents);
      && NowPlaying.IndexOfTrack(r.queue, r.tracks[k].id) == k
      && PlayerService.IndexOfVideo(r.queue, r.tracks[k].id) == -1
  {
    TapThenReconcile(songs, index, item, api, user, recents, k);
  }

  /**
   * After a song of a user playlist starts a queue, both reconciliations find
   * native track `k` at logical position `k`.
   */
  lemma PlaylistThenReconcile(songs: seq<Song>, index: int, item: Song, stream: string, user: Option<User>,
                              recents: seq<Song>, wasPlaying: bool, native: NativePlayer.Native, k: int)
    requires 0 <= index <= |songs|
    requires var r := UserPlaylist.Play(songs, index, item, stream, user, recents, wasPlaying, native);
      CachedData.DistinctVideos(r.queue) && KeyedByVideoId(r.queue) && 0 <= k < |r.queue|
    ensures var r := UserPlaylist.Play(songs, index, item, stream, user, recents, wasPlaying, native);
      && r.queue[k] == songs[index + k]
      && PlayerService.IndexOfVideo(r.queue, r.native.tracks[k].id) == k
      && NowPlaying.IndexOfTrack(r.queue, r.native.tracks[k].id) == k
  {
    var r := UserPlaylist.Play(songs, index, item, stream, user, recents, wasPlaying, native);
    var id := r.native.tracks[k].id;
    assert forall j :: 0 <= j < |r.queue| && j != k ==> r.queue[j].videoId != id by {
      forall j | 0 <= j < |r.queue| && j != k ensures r.queue[j].videoId != id {
        if j < k {} else {}
      }
    }
  }

  /** The songs of the on-device screen, normalised from its assets. */
  function LocalQueue(assets: seq<LocalSongs.Asset>): (q: seq<Song>)
    ensures |q| == |assets|
    ensures forall k :: 0 <= k < |q| ==> q[k] == LocalSongs.NormalizeSong(assets[k])
  {
    seq(|assets|, k requires 0 <= k < |assets| => LocalSongs.NormalizeSong(assets[k]))
  }

  /** A queue started from on-device songs with distinct asset ids keys every entry by its asset id, once. */
  lemma LocalKeys(assets: seq<LocalSongs.Asset>, index: int)
    requires forall j, m :: 0 <= j < m < |assets| ==> assets[j].id != assets[m].id
    requires 0 <= index <= |assets|
    ensures var q := LocalQueue(assets)[index..];
      && (forall j :: 0 <= j < |q| ==>
            q[j].videoId == Some(assets[index + j].id) && PlayKey(q[j]) == q[j].videoId && OptionsKey(q[j]) == q[j].videoId)
      && CachedData.DistinctVideos(q) && DistinctPlayKeys(q)
  {
    var q := LocalQueue(assets)[index..];
    forall j | 0 <= j < |q|
      ensures q[j].videoId == Some(assets[index + j].id) && PlayKey(q[j]) == q[j].videoId
        && OptionsKey(q[j]) == q[j].videoId
    {
      assert q[j] == LocalSongs.NormalizeSong(assets[index + j]);
    }
  }

  /**
   * On-device songs carry their asset id as both `id` and `videoId`, so with
   * distinct asset ids a queue started from them is found again by both
   * reconciliations, and the track options modal keys them the same way.
   */
  lemma LocalQueueReconciles(assets: seq<LocalSongs.Asset>, index: int, item: Song, api: string,
                             user: Option<User>, recents: seq<Song>, k: int)
    requires forall j, m :: 0 <= j < m < |assets| ==> assets[j].id != assets[m].id
    requires 0 <= index <= |assets| && 0 <= k < |assets| - index
    ensures var r := TrackComponent.Play(LocalQueue(assets), index, item, api, user, recents);
      && r.tracks[k].id == Some(assets[index + k].id)
      && OptionsKey(r.queue[k]) == PlayKey(r.queue[k])
      && NowPlaying.IndexOfTrack(r.queue, r.tracks[k].id) == k
      && PlayerService.IndexOfVideo(r.queue, r.tracks[k].id) == k
  {
    var songs := LocalQueue(assets);
    LocalKeys(assets, index);
    var r := TrackComponent.Play(songs, index, item, api, user, recents);
    assert r.queue == songs[index..];
    TapThenReconcile(songs, index, item, api, user, recents, k);
  }

  /** The track the prefetch appends streams the url the player picks from the same resolver answer. */
  lemma PrefetchStreamsPlayerUrl(song: Song, answer: Resolved)
    ensures ServiceData.NewTrack(song, answer).url == Player.PlayASongs(Some(answer))
  {
  }
}
