/** constants/player.js: the share message for a song, and the stream url picked from a resolver answer. */
module Player {
  import opened Wrappers
  import opened Js
  import opened Media

  const ListenPath := "/api/listen?id="

  datatype Share = Share(deepLink: string, message: string)

  /** The deep link for a song id under the API base. */
  function DeepLink(api: string, id: string): string {
    api + ListenPath + id
  }

  /** Reads the song id back out of a deep link under the API base. */
  function ListenId(api: string, link: string): Option<string> {
    if StartsWith(link, api + ListenPath) then Some(link[|api + ListenPath|..]) else None
  }

  lemma DeepLinkRoundTrip(api: string, id: string)
    ensures ListenId(api, DeepLink(api, id)) == Some(id)
  {
    var p := api + ListenPath;
    assert DeepLink(api, id) == p + id;
    assert (p + id)[..|p|] == p;
    assert (p + id)[|p|..] == id;
  }

  const MessageHead := "\U{1F3B6} Listen to \""
  const MessageMiddle := "\" on Vibe! \n "

  /** `shareSong(currentSong)`: the share sheet content, or `None` when the song has no id. */
  function ShareSong(song: Option<Song>, api: string): (r: Option<Share>)
    ensures song.None? || !Truthy(PlayKey(song.value)) ==> r.None?
    ensures r.Some? ==>
      var id := PlayKey(song.value).value;
      && (Truthy(song.value.videoId) ==> id == song.value.videoId.value)
      && (!Truthy(song.value.videoId) ==> song.value.id == Some(id))
      && ListenId(api, r.value.deepLink) == Some(id)
      && OccursAt(r.value.message, Show(song.value.title), |MessageHead|)
      && OccursAt(r.value.message, r.value.deepLink, |r.value.message| - |r.value.deepLink|)
  {
    match song
    case None => None
    case Some(s) =>
      var key := PlayKey(s);
      if !Truthy(key) then None
      else
        var link := DeepLink(api, key.value);
        DeepLinkRoundTrip(api, key.value);
        var message := MessageHead + Show(s.title) + MessageMiddle + link;
        assert message[|MessageHead|..|MessageHead| + |Show(s.title)|] == Show(s.title);
        assert message[|message| - |link|..] == link;
        Some(Share(link, message))
  }

  /** `playASongs`: the url of the last adaptive format of the resolver's answer, `None` when there is none. */
  function PlayASongs(answer: Option<Resolved>): (r: Option<string>)
    ensures answer.None? ==> r.None?
    ensures answer.Some? && |answer.value.adaptiveFormats| > 0 ==>
      r == answer.value.adaptiveFormats[|answer.value.adaptiveFormats| - 1].url
    ensures answer.Some? && |answer.value.adaptiveFormats| == 0 ==> r.None?
  {
    match answer
    case None => None
    case Some(a) => LastUrl(a.adaptiveFormats)
  }
}
