/**
 * The background playback service of components/trackPlayerService.js: its
 * remote-seek check, its reconciliation of the native active track with the
 * logical queue (with a prefetch of the following song), and its queue-ended
 * decision. The service keeps its own `currentIndex`, seeded from the service
 * data when it starts.
 */
module PlayerService {
  import opened Wrappers
  import opened Js
  import opened Media
  import opened NativePlayer
  import opened ServiceData

  /** The native events the service subscribes to. */
  datatype Listener =
    | OnRemotePlay | OnRemotePause | OnRemoteNext | OnRemotePrevious
    | OnRemoteSeek | OnActiveTrackChange | OnQueueEnd

  /**
   * The listeners the service function registers as written: a bare reference
   * to an undeclared `Device` sits between the first four registrations and the
   * last three, and evaluating it throws unless such a global exists.
   */
  function ListenersAsWritten(deviceDefined: bool): (r: set<Listener>)
    ensures {OnRemotePlay, OnRemotePause, OnRemoteNext, OnRemotePrevious} <= r
    ensures OnRemoteSeek in r <==> deviceDefined
    ensures OnActiveTrackChange in r <==> deviceDefined
    ensures OnQueueEnd in r <==> deviceDefined
  {
    var transport := {OnRemotePlay, OnRemotePause, OnRemoteNext, OnRemotePrevious};
    if deviceDefined then transport + {OnRemoteSeek, OnActiveTrackChange, OnQueueEnd} else transport
  }

  /** Without a global `Device`, none of the handlers modelled below is ever subscribed. */
  lemma StrayDeviceDropsHandlers()
    ensures ListenersAsWritten(false) * {OnRemoteSeek, OnActiveTrackChange, OnQueueEnd} == {}
  {
  }

  /**
   * The listeners with the stray statement removed: every event the service
   * handles is subscribed, exactly the set the code registers when `Device` exists.
   */
  function Listeners(): (r: set<Listener>)
    ensures forall l: Listener :: l in r
    ensures r == ListenersAsWritten(true)
  {
    var r := {OnRemotePlay, OnRemotePause, OnRemoteNext, OnRemotePrevious, OnRemoteSeek, OnActiveTrackChange, OnQueueEnd};
    assert forall l: Listener :: l in r by {
      forall l: Listener ensures l in r {
        assert l.OnRemotePlay? || l.OnRemotePause? || l.OnRemoteNext? || l.OnRemotePrevious?
          || l.OnRemoteSeek? || l.OnActiveTrackChange? || l.OnQueueEnd?;
      }
    }
    r
  }

  /** The service's own `currentIndex` and the native player it drives. */
  datatype Service = Service(index: int, native: Native)

  /** The `position` of a remote seek event: not a number, NaN, or a number of seconds. */
  datatype Position = NonNumber | NotANumber | Seconds(value: real)

  /** The native playback state as far as the seek handler looks at it. */
  datatype PlaybackState = PausedState | OtherState

  datatype SeekEffect = Ignored | Seeked(position: real, resumed: bool)

  /**
   * The `RemoteSeek` listener; `duration` is the native progress duration and
   * `seekOk` whether the native seek succeeded.
   */
  function RemoteSeek(position: Position, duration: real, state: PlaybackState, seekOk: bool): (r: SeekEffect)
    ensures !position.Seconds? ==> r == Ignored
    ensures position.Seconds? && (position.value < 0.0 || position.value > duration) ==> r == Ignored
    ensures r.Seeked? <==> position.Seconds? && 0.0 <= position.value <= duration && seekOk
    ensures r.Seeked? ==> r.position == position.value && (r.resumed <==> state == PausedState)
  {
    match position
    case NonNumber => Ignored
    case NotANumber => Ignored
    case Seconds(p) =>
      if p < 0.0 || p > duration then Ignored
      else if !seekOk then Ignored
      else Seeked(p, state == PausedState)
  }

  /** The position in the logical queue of the song whose `videoId` is `id`, or -1. */
  function IndexOfVideo(queue: seq<Song>, id: Option<string>): (i: int)
    ensures -1 <= i < |queue|
    ensures i == -1 <==> forall k :: 0 <= k < |queue| ==> queue[k].videoId != id
    ensures i != -1 ==> queue[i].videoId == id && forall k :: 0 <= k < i ==> queue[k].videoId != id
  {
    FindIndex(queue, (s: Song) => s.videoId == id)
  }

  /** What the track-change listener decides: the new index, and the song to prefetch. */
  datatype TrackChange = TrackChange(index: int, prefetch: Option<Song>)

  /** The native active track, if the native player reports one. */
  function ActiveTrack(n: Native): Option<Track> {
    if n.active.None? then None else GetTrack(n, n.active.value)
  }

  /** The decision of the `PlaybackActiveTrackChanged` listener; `hasTrack` is whether the event carries `data.track`. */
  function TrackChangeDecision(s: Service, data: Data, hasTrack: bool): (r: TrackChange)
    ensures !hasTrack || ActiveTrack(s.native).None? ==> r == TrackChange(s.index, None)
    ensures hasTrack && ActiveTrack(s.native).Some? ==>
      var i := IndexOfVideo(data.queue, ActiveTrack(s.native).value.id);
      && (i == -1 ==> r == TrackChange(s.index, None))
      && (i != -1 ==> r.index == i && (r.prefetch.Some? <==> i + 1 < |data.queue|)
                      && (r.prefetch.Some? ==> r.prefetch.value == data.queue[i + 1]))
  {
    if !hasTrack then TrackChange(s.index, None)
    else match ActiveTrack(s.native)
      case None => TrackChange(s.index, None)
      case Some(track) =>
        var i := IndexOfVideo(data.queue, track.id);
        if i == -1 then TrackChange(s.index, None)
        else TrackChange(i, if i + 1 < |data.queue| then Some(data.queue[i + 1]) else None)
  }

  /** The whole `PlaybackActiveTrackChanged` listener; `answer` is the resolver's answer for the prefetch. */
  function OnActiveTrackChanged(s: Service, data: Data, hasTrack: bool, answer: Option<Resolved>): (r: Service)
    ensures r.index == TrackChangeDecision(s, data, hasTrack).index
    ensures r.native.active == s.native.active && r.native.playing == s.native.playing
    ensures s.native.tracks <= r.native.tracks
  {
    var d := TrackChangeDecision(s, data, hasTrack);
    match d.prefetch
    case None => s.(index := d.index)
    case Some(next) => Service(d.index, FetchAndQueueNextTrack(s.native, next, answer))
  }

  /** A failed prefetch leaves the native player exactly as it was. */
  lemma FailedPrefetchKeepsPlayback(s: Service, data: Data, hasTrack: bool)
    ensures OnActiveTrackChanged(s, data, hasTrack, None).native == s.native
  {
  }

  /** The active track is still the same one after the listener ran. */
  lemma TrackChangeKeepsActiveTrack(s: Service, data: Data, hasTrack: bool, answer: Option<Resolved>)
    ensures ActiveTrack(OnActiveTrackChanged(s, data, hasTrack, answer).native) == ActiveTrack(s.native)
  {
    var r := OnActiveTrackChanged(s, data, hasTrack, answer);
    if s.native.active.Some? && s.native.active.value < |s.native.tracks| {
      var i := s.native.active.value;
      assert r.native.tracks[..|s.native.tracks|] == s.native.tracks;
      assert r.native.tracks[i] == s.native.tracks[i];
    }
  }

  /** Delivering the same track-change event again after a successful prefetch changes nothing. */
  lemma TrackChangeTwice(s: Service, data: Data, answer: Resolved, again: Option<Resolved>)
    ensures var once := OnActiveTrackChanged(s, data, true, Some(answer));
      OnActiveTrackChanged(once, data, true, again) == once
  {
    var once := OnActiveTrackChanged(s, data, true, Some(answer));
    TrackChangeKeepsActiveTrack(s, data, true, Some(answer));
    var d := TrackChangeDecision(s, data, true);
    var d2 := TrackChangeDecision(once, data, true);
    assert d2.prefetch == d.prefetch;
    if d.prefetch.Some? {
      FetchIdempotent(s.native, d.prefetch.value, answer, again);
    }
  }

  /** The three ways the `PlaybackQueueEnded` listener can go. */
  datatype QueueEndAction = LetNativeContinue | FetchAndSkip(next: Option<Song>) | ResetPlayer

  /** The decision of the `PlaybackQueueEnded` listener. */
  function QueueEndDecision(s: Service, data: Data): (r: QueueEndAction)
    ensures r == LetNativeContinue <==>
      s.native.active.Some? && s.native.active.value < |s.native.tracks| - 1
    ensures r.FetchAndSkip? <==>
      !(s.native.active.Some? && s.native.active.value < |s.native.tracks| - 1) && s.index + 1 < |data.queue|
    ensures r.FetchAndSkip? && 0 <= s.index + 1 ==> r.next == Some(data.queue[s.index + 1])
  {
    // `undefined < n` is false, so a missing active index never lets the native player continue
    if s.native.active.Some? && s.native.active.value < |s.native.tracks| - 1 then LetNativeContinue
    else if s.index + 1 < |data.queue| then FetchAndSkip(At(data.queue, s.index + 1))
    else ResetPlayer
  }

  /** The whole `PlaybackQueueEnded` listener; `answer` is the resolver's answer for the fetch. */
  function OnQueueEnded(s: Service, data: Data, answer: Option<Resolved>): (r: Service)
    ensures r.index == s.index
    ensures QueueEndDecision(s, data) == LetNativeContinue ==> r == s
    ensures QueueEndDecision(s, data) == ResetPlayer ==> r.native.tracks == [] && r.native.active.None?
  {
    match QueueEndDecision(s, data)
    case LetNativeContinue => s
    case FetchAndSkip(next) =>
      // a missing song makes the prefetch throw, which it catches itself
      var fetched := if next.Some? then FetchAndQueueNextTrack(s.native, next.value, answer) else s.native;
      s.(native := SkipToNext(fetched))
    case ResetPlayer => s.(native := Reset(s.native))
  }

  /**
   * At the end of the native queue with a next logical song not yet loaded, a
   * successful fetch makes that song the active track.
   */
  lemma QueueEndedPlaysNextSong(s: Service, data: Data, answer: Resolved)
    requires s.native.active == Some(|s.native.tracks| - 1)
    requires 0 <= s.index + 1 < |data.queue|
    requires !HasId(s.native.tracks, data.queue[s.index + 1].videoId)
    ensures var r := OnQueueEnded(s, data, Some(answer));
      ActiveTrack(r.native).Some? && ActiveTrack(r.native).value.id == data.queue[s.index + 1].videoId
  {
    var next := data.queue[s.index + 1];
    var fetched := FetchAndQueueNextTrack(s.native, next, Some(answer));
    assert QueueEndDecision(s, data) == FetchAndSkip(Some(next));
    assert OnQueueEnded(s, data, Some(answer)).native == SkipToNext(fetched);
  }
}
