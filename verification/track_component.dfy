/**
 * `TrackComponent.play` of components/Component.jsx: tapping a song of a list
 * starts a new logical queue at that song and loads the native player with one
 * track per queue entry.
 */
module TrackComponent {
  import opened Wrappers
  import opened Js
  import opened Media
  import CachedData

  const Placeholder := "https://res.cloudinary.com/dhlr0ufcb/image/upload/v1742872099/icon_ebgvfw.png"

  /** The streaming link: the API base, the play path, the key and the user's email as query parameters. */
  function PlayUrl(api: string, key: Option<string>, user: Option<User>): string {
    api + "/api/play?videoId=" + Show(key) + "&email=" + EmailOf(user)
  }

  /** The track built for the tapped song itself. */
  function ItemTrack(item: Song, api: string, user: Option<User>): Track {
    Track(PlayKey(item), Some(PlayUrl(api, PlayKey(item), user)),
      Some(OrDefault(item.title, "Unknown Title")), Some(OrDefault(item.author, "Unknown Artist")),
      ArtworkOf(item.thumbnail, item.artwork, Placeholder))
  }

  /** The track built for each entry of the new queue. */
  function QueueTrack(s: Song, api: string, user: Option<User>): Track {
    Track(PlayKey(s),
      Some(if Truthy(s.uri) then s.uri.value else PlayUrl(api, PlayKey(s), user)),
      Some(OrDefault(Or(s.title, s.filename), "Unknown Title")),
      Some(OrDefault(Or(s.author, s.artist), "Unknown Artist")),
      ArtworkOf(s.thumbnail, s.artwork, Placeholder))
  }

  /**
   * What `play` leaves behind: the logical queue, the native queue it installs,
   * the current song (the item's track), and the recently-played list.
   */
  datatype Started = Started(queue: seq<Song>, tracks: seq<Track>, current: Track, recents: seq<Song>)

  /** `play` for `item` found at position `index` of `songs`. */
  function Play(songs: seq<Song>, index: int, item: Song, api: string, user: Option<User>,
                recents: seq<Song>): (r: Started)
    ensures 0 <= index <= |songs| ==> r.queue == songs[index..]
    ensures 0 <= index < |songs| ==> |r.queue| == |songs| - index && r.queue[0] == songs[index]
    ensures |r.tracks| == |r.queue|
    ensures forall k :: 0 <= k < |r.queue| ==>
      && r.tracks[k].id == PlayKey(r.queue[k])
      && (Truthy(r.queue[k].uri) ==> r.tracks[k].url == r.queue[k].uri)
      && (!Truthy(r.queue[k].uri) ==> r.tracks[k].url == Some(PlayUrl(api, PlayKey(r.queue[k]), user)))
    ensures r.current.id == PlayKey(item)
    ensures r.recents == CachedData.UpdateRecents(recents, item)
  {
    var queue := Slice(songs, index);
    var tracks := seq(|queue|, k requires 0 <= k < |queue| => QueueTrack(queue[k], api, user));
    Started(queue, tracks, ItemTrack(item, api, user), CachedData.UpdateRecents(recents, item))
  }
}
