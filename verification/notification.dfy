/**
 * components/Notification.js: the content of the playback notification and the
 * index transitions of its PREV / PAUSE / NEXT action buttons.
 */
module Notification {
  import opened Wrappers
  import opened Js
  import opened Media

  datatype Content = Content(title: string, body: string, songId: string, thumbnail: Option<string>, pauseLabel: string)

  /** The thumbnail is used only when it is a string starting with "http". */
  function ThumbnailUrl(t: Thumbnail): (r: Option<string>)
    ensures r.Some? <==> t.TextThumbnail? && StartsWith(t.text, "http")
    ensures r.Some? ==> r.value == t.text
  {
    match t
    case TextThumbnail(s) => if s != "" && StartsWith(s, "http") then Some(s) else None
    case _ => None
  }

  /** `showPlaybackNotification(song, isPlaying)`: what the notification displays. */
  function ShowPlaybackNotification(song: Option<Song>, isPlaying: bool): (r: Content)
    ensures r.title != "" && r.body != ""
    ensures song.None? ==> r.title == "Now Playing" && r.body == "Unknown Artist" && r.songId == "" && r.thumbnail.None?
    ensures song.Some? ==>
      && (Truthy(song.value.title) ==> r.title == song.value.title.value)
      && (!Truthy(song.value.title) ==> r.title == "Now Playing")
      && (Truthy(song.value.author) ==> r.body == song.value.author.value)
      && (!Truthy(song.value.author) ==> r.body == "Unknown Artist")
      && r.thumbnail == ThumbnailUrl(song.value.thumbnail)
    ensures r.pauseLabel == (if isPlaying then "Pause" else "Play")
  {
    match song
    case None => Content("Now Playing", "Unknown Artist", "", None, if isPlaying then "Pause" else "Play")
    case Some(s) =>
      Content(OrDefault(s.title, "Now Playing"), OrDefault(s.author, "Unknown Artist"),
        OrDefault(s.videoId, ""), ThumbnailUrl(s.thumbnail), if isPlaying then "Pause" else "Play")
  }

  /**
   * A registered action listener: the song list and the index it was handed
   * when it was set up. Pressing a button calls `setCurrentIndex`, but that does
   * not change what the listener itself holds.
   */
  datatype Listener = Listener(songs: seq<Song>, index: nat)

  datatype Action = Pause | Next | Prev | OtherAction

  /**
   * What one press hands to the screen: the index passed to `setCurrentIndex`,
   * the flag passed to `setIsPlaying`, and the notification shown again, each
   * `None` when the press does not get that far.
   */
  datatype Effect = Effect(setIndex: Option<nat>, setPlaying: Option<bool>, shown: Option<Content>)

  const NoEffect := Effect(None, None, None)

  /**
   * One press of an action button. `statusPlaying` is what the playback object
   * reports; `ok` says whether its calls (status, pause or play, unload, load)
   * succeed. A failing call is caught after the index has already been set, so
   * the playing flag and the notification stay as they were.
   */
  function OnAction(l: Listener, action: Action, statusPlaying: bool, ok: bool): (r: Effect)
    ensures r.setIndex.Some? && l.index < |l.songs| ==> r.setIndex.value < |l.songs|
    ensures r.shown.Some? <==> r.setPlaying.Some?
    ensures !ok ==> r.setPlaying.None?
    ensures action == Pause ==> r.setIndex.None?
    ensures action == Pause && ok ==>
      r.setPlaying == Some(!statusPlaying)
      && r.shown == Some(ShowPlaybackNotification(At(l.songs, l.index), !statusPlaying))
    ensures action == Next ==> (r.setIndex.Some? <==> l.index + 1 < |l.songs|)
    ensures action == Next && l.index + 1 < |l.songs| ==>
      r.setIndex == Some(l.index + 1)
      && (ok ==> r.setPlaying == Some(true) && r.shown == Some(ShowPlaybackNotification(Some(l.songs[l.index + 1]), true)))
    ensures action == Prev ==> (r.setIndex.Some? <==> 0 < l.index)
    ensures action == Prev && 0 < l.index ==> r.setIndex == Some(l.index - 1)
    ensures action == Prev && 0 < l.index <= |l.songs| && ok ==>
      r.setPlaying == Some(true) && r.shown == Some(ShowPlaybackNotification(Some(l.songs[l.index - 1]), true))
    ensures action == Prev && |l.songs| < l.index ==> r.setPlaying.None?
    ensures (action == Next && l.index + 1 >= |l.songs|) || (action == Prev && l.index == 0) || action == OtherAction ==>
      r == NoEffect
  {
    match action
    case Pause =>
      if ok then Effect(None, Some(!statusPlaying), Some(ShowPlaybackNotification(At(l.songs, l.index), !statusPlaying)))
      else NoEffect
    case Next =>
      if l.index + 1 < |l.songs| then
        var i := l.index + 1;
        if ok then Effect(Some(i), Some(true), Some(ShowPlaybackNotification(Some(l.songs[i]), true)))
        else Effect(Some(i), None, None)
      else NoEffect
    case Prev =>
      if l.index > 0 then
        var i := l.index - 1;
        // past the end of the list there is no song to load, and the load fails after the index is set
        if ok && i < |l.songs| then Effect(Some(i), Some(true), Some(ShowPlaybackNotification(Some(l.songs[i]), true)))
        else Effect(Some(i), None, None)
      else NoEffect
    case OtherAction => NoEffect
  }

  /** The screen state the effects land on: the song list, the current index and the playing flag. */
  datatype Handler = Handler(songs: seq<Song>, index: nat, playing: bool)

  /** Applies one press's effect to the screen. */
  function Apply(h: Handler, e: Effect): Handler {
    h.(index := e.setIndex.GetOr(h.index), playing := e.setPlaying.GetOr(h.playing))
  }

  /**
   * As written, every press of the listener steps from the index it was set up
   * with: NEXT then PREV leaves the screen one before where it started, not
   * where it started.
   */
  lemma StaleIndexAfterNextPrev(h: Handler, statusPlaying: bool)
    requires 0 < h.index && h.index + 1 < |h.songs|
    ensures var l := Listener(h.songs, h.index);
      var afterNext := Apply(h, OnAction(l, Next, statusPlaying, true));
      var afterPrev := Apply(afterNext, OnAction(l, Prev, statusPlaying, true));
      afterNext.index == h.index + 1 && afterPrev.index == h.index - 1
  {
  }

  /** As written, a second NEXT on the same listener does not move past the first one. */
  lemma StaleIndexNextTwice(h: Handler, statusPlaying: bool)
    requires h.index + 2 < |h.songs|
    ensures var l := Listener(h.songs, h.index);
      var once := Apply(h, OnAction(l, Next, statusPlaying, true));
      Apply(once, OnAction(l, Next, statusPlaying, true)) == once
  {
  }

  /**
   * The handler as intended: every press reads the index the screen holds now,
   * as a listener set up again after each index change would.
   */
  function OnActionLive(h: Handler, action: Action, statusPlaying: bool, ok: bool): (r: Handler)
    ensures r.songs == h.songs
    ensures action == Next && h.index + 1 < |h.songs| ==> r.index == h.index + 1 && (ok ==> r.playing)
    ensures action == Prev && 0 < h.index ==> r.index == h.index - 1
    ensures action == Prev && 0 < h.index <= |h.songs| && ok ==> r.playing
    ensures action == Pause && ok ==> r == h.(playing := !statusPlaying)
    ensures !ok ==> r.playing == h.playing
  {
    Apply(h, OnAction(Listener(h.songs, h.index), action, statusPlaying, ok))
  }

  /** An index inside the list stays inside it, whatever is pressed. */
  lemma OnActionKeepsIndexInList(h: Handler, action: Action, statusPlaying: bool, ok: bool)
    requires h.index < |h.songs|
    ensures OnActionLive(h, action, statusPlaying, ok).index < |h.songs|
  {
  }

  /** With the live index, PREV undoes NEXT, even when the playback calls fail. */
  lemma PrevUndoesNext(h: Handler, statusPlaying: bool, ok1: bool, ok2: bool)
    requires h.index + 1 < |h.songs|
    ensures var n := OnActionLive(h, Next, statusPlaying, ok1);
      OnActionLive(n, Prev, statusPlaying, ok2).index == h.index
  {
  }

  /** After a successful PAUSE press the notification's button reads "Pause" exactly when the screen now plays. */
  lemma PauseLabelFollowsPlaying(h: Handler, statusPlaying: bool)
    ensures var e := OnAction(Listener(h.songs, h.index), Pause, statusPlaying, true);
      e.shown.Some? && (e.shown.value.pauseLabel == "Pause" <==> Apply(h, e).playing)
  {
  }
}
