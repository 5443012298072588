/**
 * The recently-played list of constants/cachedData.js: a list kept in the
 * key-value store under "recents", keyed by `videoId`, where playing a song puts
 * it at the end and drops its earlier entry.
 */
module CachedData {
  import opened Wrappers
  import opened Js
  import opened Media

  /** The list read back from the store: the stored list, or the empty list when nothing is stored. */
  function GetRecentlyPlayed(stored: Option<seq<Song>>): (r: seq<Song>)
    ensures stored.None? ==> r == []
    ensures stored.Some? ==> r == stored.value
  {
    stored.GetOr([])
  }

  /** The first position of an entry with the given `videoId`, or -1. */
  function IndexOfVideo(list: seq<Song>, key: Option<string>): (i: int)
    ensures -1 <= i < |list|
    ensures i == -1 <==> forall k :: 0 <= k < |list| ==> list[k].videoId != key
    ensures i != -1 ==> list[i].videoId == key && forall k :: 0 <= k < i ==> list[k].videoId != key
  {
    FindIndex(list, (item: Song) => item.videoId == key)
  }

  /** The list transform of `saveToRecentlyPlayed`: drop the first entry with the song's `videoId`, append the song. */
  function UpdateRecents(list: seq<Song>, song: Song): (r: seq<Song>)
    ensures |r| > 0 && r[|r| - 1] == song
    ensures IndexOfVideo(list, song.videoId) == -1 ==> |r| == |list| + 1
    ensures IndexOfVideo(list, song.videoId) != -1 ==> |r| == |list|
  {
    var i := IndexOfVideo(list, song.videoId);
    if i == -1 then list + [song] else RemoveAt(list, i) + [song]
  }

  /** `saveToRecentlyPlayed(song)`: what it writes back under "recents". */
  function SaveToRecentlyPlayed(stored: Option<seq<Song>>, song: Song): (r: seq<Song>)
    ensures stored.None? ==> r == [song]
    ensures |r| > 0 && r[|r| - 1] == song
  {
    UpdateRecents(GetRecentlyPlayed(stored), song)
  }

  /** Reading the list back after a save gives the saved list, ending with the song. */
  lemma SaveThenRead(stored: Option<seq<Song>>, song: Song)
    ensures var read := GetRecentlyPlayed(Some(SaveToRecentlyPlayed(stored, song)));
      && read == UpdateRecents(GetRecentlyPlayed(stored), song)
      && |read| > 0 && read[|read| - 1] == song
  {
  }

  /** The entries whose `videoId` differs from `key`, in order. */
  function OtherVideos(list: seq<Song>, key: Option<string>): seq<Song> {
    Filter(list, (s: Song) => s.videoId != key)
  }

  /** No two entries share a `videoId`. */
  predicate DistinctVideos(list: seq<Song>) {
    forall j, k :: 0 <= j < k < |list| ==> list[j].videoId != list[k].videoId
  }

  /** A song absent from the list is appended. */
  lemma UpdateRecentsAbsent(list: seq<Song>, song: Song)
    requires forall k :: 0 <= k < |list| ==> list[k].videoId != song.videoId
    ensures UpdateRecents(list, song) == list + [song]
  {
  }

  /** A song present in the list loses its first entry and is appended. */
  lemma UpdateRecentsPresent(list: seq<Song>, song: Song, i: nat)
    requires i < |list| && list[i].videoId == song.videoId
    requires forall k :: 0 <= k < i ==> list[k].videoId != song.videoId
    ensures UpdateRecents(list, song) == list[..i] + list[i + 1..] + [song]
  {
    assert IndexOfVideo(list, song.videoId) == i;
  }

  /** Entries with other `videoId`s keep their relative order. */
  lemma UpdateRecentsKeepsOthers(list: seq<Song>, song: Song)
    ensures OtherVideos(UpdateRecents(list, song), song.videoId) == OtherVideos(list, song.videoId)
  {
    var key := song.videoId;
    var p := (s: Song) => s.videoId != key;
    var i := IndexOfVideo(list, key);
    assert Filter([song], p) == [] by {
      assert [song][1..] == [];
    }
    if i == -1 {
      FilterConcat(list, [song], p);
    } else {
      FilterConcat(RemoveAt(list, i), [song], p);
      FilterRemoveAt(list, i, p);
    }
  }

  /** Only the appended entry carries the song's `videoId` when the old list had distinct ones. */
  lemma UpdateRecentsOnlyLast(list: seq<Song>, song: Song)
    requires DistinctVideos(list)
    ensures var r := UpdateRecents(list, song);
      forall k :: 0 <= k < |r| - 1 ==> r[k].videoId != song.videoId
  {
    var i := IndexOfVideo(list, song.videoId);
    var r := UpdateRecents(list, song);
    if i != -1 {
      forall k | 0 <= k < |r| - 1
        ensures r[k].videoId != song.videoId
      {
        if k < i {
          assert r[k] == list[k];
        } else {
          assert r[k] == list[k + 1];
          assert list[i].videoId != list[k + 1].videoId;
        }
      }
    }
  }

  /** Distinct `videoId`s stay distinct. */
  lemma UpdateRecentsDistinct(list: seq<Song>, song: Song)
    requires DistinctVideos(list)
    ensures DistinctVideos(UpdateRecents(list, song))
  {
    var i := IndexOfVideo(list, song.videoId);
    var r := UpdateRecents(list, song);
    UpdateRecentsOnlyLast(list, song);
    forall j, k | 0 <= j < k < |r|
      ensures r[j].videoId != r[k].videoId
    {
      if k == |r| - 1 {
      } else if i == -1 {
        assert r[j] == list[j] && r[k] == list[k];
      } else {
        var j' := if j < i then j else j + 1;
        var k' := if k < i then k else k + 1;
        assert r[j] == list[j'] && r[k] == list[k'];
      }
    }
  }

  /** Saving the same song twice in a row is the same as saving it once, for a list with distinct `videoId`s. */
  lemma UpdateRecentsIdempotent(list: seq<Song>, song: Song)
    requires DistinctVideos(list)
    ensures UpdateRecents(UpdateRecents(list, song), song) == UpdateRecents(list, song)
  {
    var r := UpdateRecents(list, song);
    UpdateRecentsOnlyLast(list, song);
    UpdateRecentsPresent(r, song, |r| - 1);
    assert r[..|r| - 1] + [song] == r;
  }
}
