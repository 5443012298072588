/**
 * The records the player code passes around: song entries as the screens and the
 * song API hand them over (every field optional, as in the JSON), the tracks the
 * native player holds, the logged-in user, and the resolver's answer.
 */
module Media {
  import opened Wrappers
  import opened Js

  /** A song's `thumbnail`: absent, a URL string, or an object carrying a `url`. */
  datatype Thumbnail = NoThumbnail | TextThumbnail(text: string) | ObjectThumbnail(url: Option<string>)

  /** A song entry of a list, queue, favourites or recently-played list. */
  datatype Song = Song(
    videoId: Option<string>,
    id: Option<string>,
    title: Option<string>,
    author: Option<string>,
    artist: Option<string>,
    filename: Option<string>,
    uri: Option<string>,
    url: Option<string>,
    thumbnail: Thumbnail,
    artwork: Option<string>,
    duration: Option<int>)

  /** A track as loaded into the native player. */
  datatype Track = Track(
    id: Option<string>,
    url: Option<string>,
    title: Option<string>,
    artist: Option<string>,
    artwork: Thumbnail)

  datatype User = User(email: Option<string>)

  /** One entry of the resolver's `adaptiveFormats` or `thumbnail` arrays. */
  datatype Format = Format(url: Option<string>)

  /** The `song` object of a successful resolver answer. */
  datatype Resolved = Resolved(adaptiveFormats: seq<Format>, thumbnails: seq<Format>)

  /** The song's `videoId` when truthy, else its `id`: the key the player screen and track building use. */
  function PlayKey(s: Song): Option<string> {
    Or(s.videoId, s.id)
  }

  /** The song's `id` when truthy, else its `videoId`: the key the track options modal uses. */
  function OptionsKey(s: Song): Option<string> {
    Or(s.id, s.videoId)
  }

  /** The logged-in user's email, or the empty string without a user or email. */
  function EmailOf(user: Option<User>): string {
    if user.Some? then OrDefault(user.value.email, "") else ""
  }

  /** The url of the last format, if there is one. */
  function LastUrl(formats: seq<Format>): Option<string> {
    if |formats| == 0 then None else formats[|formats| - 1].url
  }

  /**
   * The artwork a track gets: the thumbnail object's url, else the thumbnail
   * itself, else the artwork, else the fallback (an object thumbnail is always
   * truthy, so it is kept even without a url).
   */
  function ArtworkOf(thumbnail: Thumbnail, artwork: Option<string>, fallback: string): Thumbnail {
    var rest := if Truthy(artwork) then TextThumbnail(artwork.value) else TextThumbnail(fallback);
    match thumbnail
    case ObjectThumbnail(u) => if Truthy(u) then TextThumbnail(u.value) else thumbnail
    case TextThumbnail(t) => if t != "" then thumbnail else rest
    case NoThumbnail => rest
  }
}
