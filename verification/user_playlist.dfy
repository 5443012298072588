/**
 * `play` of app/user-playlist.jsx: tapping a song of one of the user's own
 * playlists starts a new logical queue at that song.
 */
module UserPlaylist {
  import opened Wrappers
  import opened Js
  import opened Media
  import opened NativePlayer
  import CachedData

  const Placeholder := "https://via.placeholder.com/150"

  /** The streaming link: the stream base, the play path, the song's `videoId` and the user's email as query parameters. */
  function StreamUrl(stream: string, s: Song, user: Option<User>): string {
    stream + "/play?videoId=" + Show(s.videoId) + "&email=" + EmailOf(user)
  }

  function PlaylistTrack(s: Song, stream: string, user: Option<User>): Track {
    Track(s.videoId, Some(StreamUrl(stream, s, user)),
      Some(OrDefault(s.title, "Unknown Title")), Some(OrDefault(s.author, "Unknown Artist")),
      ArtworkOf(s.thumbnail, None, Placeholder))
  }

  /** The screen's state after `play`. */
  datatype Started = Started(queue: seq<Song>, current: Song, playing: bool, recents: seq<Song>, native: Native)

  /**
   * `play(item, index)` on a playlist holding `songs`. When the new queue is
   * empty `skip(0)` fails and the error is caught, so the playing flag is left
   * as it was.
   */
  function Play(songs: seq<Song>, index: int, item: Song, stream: string, user: Option<User>,
                recents: seq<Song>, wasPlaying: bool, native: Native): (r: Started)
    ensures 0 <= index <= |songs| ==> r.queue == songs[index..]
    ensures 0 <= index < |songs| ==> |r.queue| == |songs| - index && r.queue[0] == songs[index]
    ensures r.current == item
    ensures |r.native.tracks| == |r.queue|
    ensures forall k :: 0 <= k < |r.queue| ==>
      && r.native.tracks[k].id == r.queue[k].videoId
      && r.native.tracks[k].title == Some(if Truthy(r.queue[k].title) then r.queue[k].title.value else "Unknown Title")
      && r.native.tracks[k].artist == Some(if Truthy(r.queue[k].author) then r.queue[k].author.value else "Unknown Artist")
    ensures |r.queue| > 0 ==> r.playing && r.native.active == Some(0) && r.native.playing
    ensures |r.queue| == 0 ==> r.playing == wasPlaying
    ensures user.None? ==> r.recents == CachedData.UpdateRecents(recents, item)
    ensures user.Some? ==> r.recents == recents
  {
    var saved := if user.None? then CachedData.UpdateRecents(recents, item) else recents;
    var queue := Slice(songs, index);
    var tracks := seq(|queue|, k requires 0 <= k < |queue| => PlaylistTrack(queue[k], stream, user));
    var loaded := Reset(native).(tracks := tracks);
    if |tracks| > 0 then Started(queue, item, true, saved, SkipAndPlay(loaded, 0))
    else Started(queue, item, wasPlaying, saved, loaded)
  }
}
