# Vibe playback queue bookkeeping, modelled in Dafny

This project models the queue bookkeeping of the Vibe music-streaming app. That
covers the logical queue the screens keep, the index of the now-playing song in
it, the native player's own queue, the recently-played list and the small
string and record helpers around them. Every event handler is one atomic step
over an explicit state record. The native player is an abstract queue of
tracks. The song resolver is an `Option` answer. The key-value store is a
sequence that defaults to `[]`.

Modules (four shared ones, then the core files; components/Component.jsx is split over three):

- `Wrappers`, `Js`: `Option`, and the JavaScript semantics the code relies on. These are truthiness of optional strings, `a || b`, interpolation of `undefined`, `slice`, `splice`, `findIndex`, `trim` and `startsWith`.
- `Media`: song entries (every field optional, as in the JSON), native tracks, users and resolver answers.
- `NativePlayer`: the abstract native queue, active index, playing flag and repeat mode.
- `Queue`: `moveSong` of constants/queue.js. Component.jsx has a verbatim copy at components/Component.jsx:219-234, and one definition serves both.
- `CachedData`: the recently-played list.
- `Format`, `NowPlaying`, `TrackComponent`: the parts of components/Component.jsx.
- `ServiceData`, `PlayerService`: trackPlayerUtils.js and components/trackPlayerService.js.
- `TrackOptions`, `Notification`, `UserPlaylist`, `LocalSongs`, `CreatePlaylist`, `Player`: the remaining core files.
- `Consistency`: how the parts agree. A queue started by a tap is found again by both track-change reconciliations, and the prefetch streams the url the player picks.

Assumptions about the native player, whose code is not part of this model:

- `skip(i)` fails, and changes nothing, when `i` is outside the queue. The callers catch the failure.
- `skipToNext` at the last track changes nothing.
- `move` reorders like `moveSong`, and the active track stays active wherever it moves.
- `remove(i)` ignores an out-of-range `i`. Removing a track before the active one lowers the active index by one, so the same track stays active. Removing the active track makes the following track active, or ends the queue when there is none.
- `reset` empties the queue and stops.

Behaviour worth noting:

- Pressing next at the last song always resets the player. This holds whatever the repeat mode.
- The queue-ended handlers never wrap round to the first song.
- The repeat toggle only ever selects the native "track" mode or "off". It never selects "queue".
- The screen matches native tracks on `videoId`, else `id`. The background service matches on `videoId` alone, so it loses track of an entry that has only an `id`.

## Model

| member | source | states |
|---|---|---|
| Queue.MoveSong | constants/queue.js:4-19 | out-of-range indices return the queue unchanged; otherwise the length and multiset are kept, the moved entry lands at `toIndex`, and dropping it from both sides gives equal sequences |
| Queue.MoveSongAt | constants/queue.js:15-16 | element-wise reference definition: entries between the two positions shift by one towards `fromIndex`, all others keep their place |
| Queue.MoveSongSamePosition | constants/queue.js:15-16 | `moveSong(a, i, i)` leaves `a` unchanged |
| Queue.MoveSongUndo | constants/queue.js:15-16 | a move is undone by the move from `toIndex` back to `fromIndex` |
| Queue.MoveSongTracks | constants/queue.js:15-16 | every entry is found after the move at its moved position: the moved entry at `toIndex`, entries in between one step towards `fromIndex`, the rest in place |
| NativePlayer.Move | components/TrackOptions.jsx:99 | the library's `move` (assumed): invalid indices change nothing; otherwise the tracks are reordered like `moveSong` and the active track is still the active track |
| NativePlayer.Remove | components/TrackOptions.jsx:120 | the library's `remove` (assumed): an out-of-range index changes nothing; otherwise one track fewer, the same active track when another one is removed, and the following track when the active one is removed |
| CachedData.GetRecentlyPlayed | constants/cachedData.js:24-34 | a missing stored list reads as `[]`; otherwise the stored list is returned |
| CachedData.SaveThenRead | constants/cachedData.js:3-34 | reading the list back after a save gives the updated list, which ends with the song |
| CachedData.UpdateRecents | constants/cachedData.js:6-17 | the song ends up last; the length grows by one when its `videoId` was absent and is unchanged when present |
| CachedData.SaveToRecentlyPlayed | constants/cachedData.js:3-22 | with nothing stored the written list is `[song]`; the written list always ends with the song |
| CachedData.UpdateRecentsAbsent | constants/cachedData.js:7-10 | with no entry for the song's `videoId`, the result is the old list with the song appended |
| CachedData.UpdateRecentsPresent | constants/cachedData.js:11-17 | with a first entry at `i` for the `videoId`, the result is the list without position `i`, then the song |
| CachedData.UpdateRecentsKeepsOthers | constants/cachedData.js:15-16 | entries with other `videoId`s keep their relative order |
| CachedData.UpdateRecentsOnlyLast | constants/cachedData.js:7-17 | from a list with distinct `videoId`s, only the appended entry carries the song's `videoId` |
| CachedData.UpdateRecentsDistinct | constants/cachedData.js:7-17 | distinct `videoId`s stay distinct |
| CachedData.UpdateRecentsIdempotent | constants/cachedData.js:7-17 | saving the same song twice in a row equals saving it once, for a list with distinct `videoId`s |
| Format.ReplaceUnderscores | components/Component.jsx:162 | every `_` becomes a space, all other characters are kept, length is kept |
| Format.CapitalizeWords | components/Component.jsx:162 | the length is kept; only characters at a word start (`\b\w`) can change; every character agrees with the input up to case; no word start is left lower-case |
| Format.FormatTitle | components/Component.jsx:161-162 | the title has the key's length and no `_`; each underscore, and only an underscore, becomes a new space; other characters agree up to case; no word starts with a lower-case letter |
| Format.SectionFor | components/Component.jsx:164-191 | "charts", "moods_and_moments" and "genres" are hidden (iff); the title is `formatTitle(key)`; the section is the key except at position 1, where it is "album" iff the key contains "album", else "playlist" |
| Format.FormatTimeShape | components/Component.jsx:555-560 | `formatTime(s)` is the minutes numeral, `:`, then exactly two characters: the seconds, zero-padded below 10 |
| Format.FormatTimeRoundTrip | components/Component.jsx:555-560 | reading a `formatTime` result back as `m:ss` gives the original number of seconds |
| NowPlaying.PlayNext | components/Component.jsx:489-513 | at the last song: index 0, no current song, not playing, native queue reset; otherwise index + 1, that song current and playing, and it is saved to recently-played; a failing native skip changes nothing |
| NowPlaying.PlayPrev | components/Component.jsx:515-533 | at index 0, or when the native skip fails, nothing changes; otherwise index - 1, playing, with that song current and saved to recently-played |
| NowPlaying.PlayPause | components/Component.jsx:475-487 | the native playing state flips, and the screen flag follows the native state |
| NowPlaying.PlayPauseTwice | components/Component.jsx:475-487 | two presses restore the native player and leave the screen flag equal to its playing state |
| NowPlaying.ModeFor | components/Component.jsx:546-548 | the flag maps to the native "track" mode when set and to "off" otherwise, never to "queue" |
| NowPlaying.ToggleRepeat | components/Component.jsx:543-553 | the flag is negated and the native mode set to match it; queue, index and current song are untouched |
| NowPlaying.QueueEnded | components/Component.jsx:431-441 | the queue-ended listener leaves the player idle: index 0, no current song, not playing, native queue empty |
| NowPlaying.QueueEndedIdempotent | components/Component.jsx:431-441 | a second queue-ended event changes nothing |
| NowPlaying.IndexOfTrack | components/Component.jsx:398-400 | the first queue position whose `videoId \|\| id` equals the track id, or -1 exactly when there is none |
| NowPlaying.HandleTrackChange | components/Component.jsx:390-414 | without a native active track nothing changes; the index moves only when the track's id is found at a position different from the current index, and then that song becomes current and is saved to recently-played |
| NowPlaying.HandleTrackChangeSyncs | components/Component.jsx:398-406 | once a found track is reconciled, the current index points at a song whose key is the native active track's id |
| NowPlaying.HandleTrackChangeIdempotent | components/Component.jsx:404-410 | delivering the same track-change event twice changes nothing the second time |
| NowPlaying.NextReachesLast | components/Component.jsx:489-506 | with every song loaded natively, `\|queue\| - 1 - index` presses of next reach the last song |
| NowPlaying.NextAtLastStops | components/Component.jsx:490-495 | one more next at the last song leaves the player idle |
| NowPlaying.PrevUndoesNext | components/Component.jsx:500-525 | previous after a successful next restores the index and current song |
| NowPlaying.ToggleRepeatTwice | components/Component.jsx:545-549 | toggling twice restores the flag, with the native mode consistent with it |
| NowPlaying.ThreeSongScenario | components/Component.jsx:489-506 | queue `[A, B, C]` from index 0: two nexts play C, a third leaves the player idle |
| TrackComponent.Play | components/Component.jsx:967-1016 | the new queue is `songs[index..]`, with length `\|songs\| - index` and head `songs[index]`; one track per entry with id `videoId \|\| id` and url `uri` when present, else the play link; the tapped song is saved to recently-played |
| UserPlaylist.Play | app/user-playlist.jsx:30-65 | the new queue is `songs[index..]`; tracks map one to one with `id == videoId` and "Unknown Title" / "Unknown Artist" defaults; recently-played is saved only without a logged-in user; an empty queue leaves the playing flag as it was |
| ServiceData.ServiceDataRoundTrip | trackPlayerUtils.js:4-16 | the service data holds exactly the arguments handed over, with `[]`, no user and `0` for missing ones |
| ServiceData.FetchAndQueueNextTrack | trackPlayerUtils.js:18-52 | a song already in the native queue, or a failed resolve, leaves the native queue unchanged; otherwise exactly one track is appended, with the song's `videoId` and the last adaptive format's url; the active track is never touched |
| ServiceData.FetchAddsExactlyOne | trackPlayerUtils.js:23-42 | after a successful prefetch exactly one native track has the song's id |
| ServiceData.FetchIdempotent | trackPlayerUtils.js:23-26 | a second prefetch of the same song after a successful one adds nothing |
| PlayerService.ListenersAsWritten | components/trackPlayerService.js:13-22 | as written, the seek, track-change and queue-ended listeners are registered iff a global `Device` exists |
| PlayerService.StrayDeviceDropsHandlers | components/trackPlayerService.js:20 | without a global `Device`, none of those three listeners is registered |
| PlayerService.Listeners | components/trackPlayerService.js:13-118 | with the stray statement removed, every listener the service defines is registered, which is what the code registers when a global `Device` exists |
| PlayerService.RemoteSeek | components/trackPlayerService.js:22-54 | a non-number or NaN position is ignored, and so is one below 0 or above the duration; a seek happens iff the position is in `[0, duration]` and the native seek succeeds, and it resumes playback iff the player was paused |
| PlayerService.IndexOfVideo | components/trackPlayerService.js:72-74 | the first queue position whose `videoId` equals the track id, or -1 exactly when there is none |
| PlayerService.TrackChangeDecision | components/trackPlayerService.js:56-96 | no active track or no `data.track` keeps the index; an id not in the queue keeps the index; a found position becomes the index, and the next song is prefetched iff it exists |
| PlayerService.OnActiveTrackChanged | components/trackPlayerService.js:56-96 | the index is the decision's; the native active track and playing state are untouched, and the native queue only grows |
| PlayerService.FailedPrefetchKeepsPlayback | components/trackPlayerService.js:86-92 | a failed resolve during prefetch leaves the native player exactly as it was |
| PlayerService.TrackChangeKeepsActiveTrack | components/trackPlayerService.js:56-96 | the native active track is the same before and after the listener |
| PlayerService.TrackChangeTwice | components/trackPlayerService.js:56-96 | delivering the same event again after a successful prefetch changes nothing |
| PlayerService.QueueEndDecision | components/trackPlayerService.js:98-117 | the three-way choice: the native player continues iff its active index is below its last index; otherwise fetch-and-skip iff `currentIndex + 1 < length`, with that song; otherwise reset |
| PlayerService.OnQueueEnded | components/trackPlayerService.js:98-117 | "continue" changes nothing, "reset" empties the native queue, and the service index is never changed |
| PlayerService.QueueEndedPlaysNextSong | components/trackPlayerService.js:107-113 | at the end of the native queue, with the next logical song not yet loaded, a successful fetch makes that song the active track |
| TrackOptions.NativeIndexOf | components/TrackOptions.jsx:80-82 | the first native position with `id == song.videoId`, or -1 exactly when there is none |
| TrackOptions.OfferedOption | components/TrackOptions.jsx:108-141 | the remove option is offered iff some queue entry matches on `id \|\| videoId`; the add option otherwise |
| TrackOptions.HandleRemove | components/TrackOptions.jsx:39-44 | a valid index removes exactly that entry; an index past the end changes nothing; a negative index counts from the end |
| TrackOptions.HandleRemoveUndone | components/TrackOptions.jsx:39-44 | a removal at a valid index is undone by inserting the removed entry back at that index |
| TrackOptions.RemoveFromQueue | components/TrackOptions.jsx:114-123 | as written, both queues are spliced at the native index, so a song missing natively (-1) removes the last logical entry |
| TrackOptions.RemoveFromQueueDropsWrongSong | components/TrackOptions.jsx:108-123 | counterexample: queue `[B, A]` with B lacking `videoId` is offered removal of B, and the press leaves `[B]` |
| TrackOptions.RemoveFromQueueFixed | components/TrackOptions.jsx:108-123 | the corrected press removes one logical entry iff the option was offered, and touches the native queue only when the song is found there |
| TrackOptions.RemoveFixedKeepsOthers | components/TrackOptions.jsx:108-123 | the corrected press keeps every non-matching entry, in order |
| TrackOptions.IndexOfKey | components/TrackOptions.jsx:108-111 | the first entry matching the song on `id \|\| videoId` (no earlier entry matches), or -1 exactly when the song is not in the queue |
| TrackOptions.AddToQueue | components/TrackOptions.jsx:129-140 | disabled on an empty logical queue; otherwise the logical queue gets the song appended and the native queue one more track at its end |
| TrackOptions.AddThenOffersRemove | components/TrackOptions.jsx:108-141 | after adding a song, the modal offers to remove it |
| TrackOptions.PlayNextInQueue | components/TrackOptions.jsx:73-103 | nothing happens when the song is not in the native queue; otherwise both queues are permuted, the track that was playing still plays, and the logical entry at `i` lands at `activeIndex + 1` |
| TrackOptions.PlayNextPutsSongNext | components/TrackOptions.jsx:86-99 | for a song after the playing track, the active index is unchanged and the chosen song is the very next track |
| TrackOptions.PlayNextBeforeActiveMissesNext | components/TrackOptions.jsx:86-99 | for a song before the playing track, the active index drops by one and the chosen song lands two places after it; the track that was next still plays next |
| TrackOptions.PlayNextOnPlayingSong | components/TrackOptions.jsx:86-99 | choosing the playing song moves it one place on; it stays active, and the old next track now comes before it |
| TrackOptions.PlayNextInQueueFixed | components/TrackOptions.jsx:80-99 | the corrected press changes nothing for a missing or the playing song, and otherwise permutes both queues |
| TrackOptions.PlayNextFixedPutsSongNext | components/TrackOptions.jsx:80-99 | with the corrected press the playing track keeps playing and the chosen song is the very next track, wherever it was |
| Notification.ThumbnailUrl | components/Notification.js:78-83 | the thumbnail is kept iff it is a string starting with "http" |
| Notification.ShowPlaybackNotification | components/Notification.js:69-158 | the title defaults to "Now Playing" and the body to "Unknown Artist", and neither is ever empty; the thumbnail is validated; the button reads "Pause" iff playing |
| Notification.OnAction | components/Notification.js:161-217 | from the index captured at setup: PAUSE sets playing to the negation of the reported status; NEXT sets index + 1 iff it is inside the list; PREV sets index - 1 iff `index > 0`; a failing playback call leaves the index set but the playing flag and the notification untouched; otherwise nothing is set |
| Notification.StaleIndexAfterNextPrev | components/Notification.js:161-211 | as written, NEXT then PREV on one listener leaves the screen at index - 1, not where it started |
| Notification.StaleIndexNextTwice | components/Notification.js:188-198 | as written, a second NEXT on one listener sets the same index as the first |
| Notification.OnActionLive | components/Notification.js:161-217 | the corrected handler steps from the index the screen holds now; without a failure NEXT and PREV also set playing |
| Notification.OnActionKeepsIndexInList | components/Notification.js:188-211 | with the corrected handler an index inside the list stays inside it |
| Notification.PrevUndoesNext | components/Notification.js:188-211 | with the corrected handler PREV after NEXT restores the index, even when the playback calls fail |
| Notification.PauseLabelFollowsPlaying | components/Notification.js:176-186 | after a successful PAUSE the notification button reads "Pause" exactly when the screen now plays |
| LocalSongs.NormalizeSong | app/local/index.jsx:70-81 | `id` and `videoId` are the asset id; title and filename default to "Unknown Song"; author and artist are "Unknown Artist"; duration defaults to 0; no thumbnail or artwork |
| LocalSongs.LoadMore | app/local/index.jsx:83-102 | acts only with `hasMore` and a page; then songs are the old songs followed by the page's assets, and the cursor is replaced iff `hasNextPage` |
| LocalSongs.OnEndReached | app/local/index.jsx:145-149 | loads more only once a cursor other than the initial `0` is stored |
| LocalSongs.OnEndReachedAfterPage | app/local/index.jsx:83-149 | once a page with a next page is loaded, reaching the end of the list loads the next page |
| LocalSongs.LoadAllAppends | app/local/index.jsx:83-102 | loading a run of pages whose every page but the last has a next page appends all their assets in order |
| LocalSongs.LoadMoreStops | app/local/index.jsx:94-97 | after a page without a next page, further loads change nothing |
| CreatePlaylist.TrimEmpty | components/Create-Playlist.jsx:28 | the trimmed name is empty iff every character is white space |
| CreatePlaylist.HandleSave | components/Create-Playlist.jsx:27-33 | `onSave` gets the untrimmed name iff it has a non-space character, and then the field is cleared and the modal closed; otherwise nothing changes |
| Player.DeepLinkRoundTrip | constants/player.js:26 | the song id can be read back from the deep link |
| Player.ShareSong | constants/player.js:22-35 | nothing is shared without an id; the id is `videoId` when present, else `id`; the link carries the id; the message contains the title and ends with the link |
| Player.PlayASongs | constants/player.js:4-20 | the result is the url of the last adaptive format, and none without an answer or formats |
| Consistency.TapThenReconcile | components/Component.jsx:967-1016 | after a tap starts a queue at `songs[index]` with distinct play keys, the screen's reconciliation finds native track `k` at logical position `k`, which holds `songs[index + k]`; so does the service's when every entry is keyed by its `videoId` |
| Consistency.ServiceMissesSongWithoutVideoId | components/trackPlayerService.js:72-74 | an entry with an `id` but no `videoId` is found by the screen's reconciliation and not by the service's |
| Consistency.PlaylistThenReconcile | app/user-playlist.jsx:30-65 | after a user-playlist song starts a queue with distinct, non-empty `videoId`s, both reconciliations find native track `k` at logical position `k` |
| Consistency.LocalKeys | app/local/index.jsx:70-81 | normalised on-device songs with distinct asset ids are keyed by their asset id, the same under every key, and distinct |
| Consistency.LocalQueueReconciles | app/local/index.jsx:70-81 | a queue started from on-device songs is found again by both reconciliations, and the options modal keys those songs the same way |
| Consistency.PrefetchStreamsPlayerUrl | trackPlayerUtils.js:34-41 | the track the prefetch appends streams the url that `playASongs` picks from the same answer |

## Findings

| source | as written | input that shows it | evidently intended | confidence | as-written member | corrected member |
|---|---|---|---|---|---|---|
| components/TrackOptions.jsx:114-123 | the remove press looks the song up in the native queue by `id === song.videoId` and splices both queues at that index, even when it is -1 | logical queue `[B, A]` where B has `id` "b" and no `videoId`, native tracks "b", "a": B is offered removal, and the press leaves `[B]` | remove the entry the option was offered for, and leave the native queue alone when the song is not there | medium, not executed; it assumes the native `remove(-1)` does not throw | TrackOptions.RemoveFromQueueDropsWrongSong | TrackOptions.RemoveFromQueueFixed |
| components/TrackOptions.jsx:86-99 | "Play Next" moves the song to `activeIndex + 1` wherever it was | native `[x, s, a, y]` playing `a` at index 2, choosing `s`: the result is `[x, a, y, s]`, with `y` playing next, not `s` | move a song before the playing track to `activeIndex`, so that it lands right after the playing track | medium, not executed; it assumes the library's `move` keeps the playing track active | TrackOptions.PlayNextBeforeActiveMissesNext | TrackOptions.PlayNextInQueueFixed |
| components/Notification.js:161-211 | the action listener reads the `currentIndex` it was set up with, and `setCurrentIndex` does not change that value | songs `[A, B, C]`, listener set up at index 1: NEXT sets index 2, then PREV sets index 0, not 1 | every press steps from the index the screen holds | medium, not executed; the callers that set up the listener are not part of this model, and the claim assumes they do not set it up again after every index change | Notification.StaleIndexAfterNextPrev | Notification.PrevUndoesNext |
| components/trackPlayerService.js:20 | a bare `Device` expression stands between the transport listeners and the seek, track-change and queue-ended listeners | the service starting in an environment with no global `Device`: evaluating it throws, and the last three listeners are never registered | register all seven listeners | medium, not executed; it assumes no global `Device` exists | PlayerService.StrayDeviceDropsHandlers | PlayerService.Listeners |

The handlers in `PlayerService` model the listeners as registered by `PlayerService.Listeners`.

## Left out

- Rendering, hooks, effects, styles and modals. Only the state changes the handlers make are modelled. Listener subscribe and unsubscribe lifecycles are out.
- Shared arrays. `moveSong` and `handleRemove` splice the context's queue array in place, so `setCurrentQueue` gets the same array back and the array handed to `updateServiceData` changes with it. The model treats every queue as a value, so an edit reaches the service only through an explicit update.
- Concurrency. Interleavings of overlapping async handlers are out, and so is the stale `currentIndex` that `updateService` hands over before React re-renders. Each handler is one atomic step.
- The native player library. It is an abstract queue with the assumptions listed above. There is no audio, progress or buffering.
- HTTP calls. These include `addToRNTPQueue`, `handleRecentlyPlayed` and the email sent with a prefetch. A resolver answer is an `Option`.
- AsyncStorage I/O and JSON encoding. The stored list is an `Option` of a sequence, and corrupted JSON (the caught parse error) is out.
- Floating point. `RemoteSeek` uses mathematical reals, and infinities are out. `formatTime` covers whole, non-negative seconds only, so its NaN branch is out.
- NowPlaying.PlayPrev: when `currentIndex - 1` lies past the end of the logical queue, the song is undefined. The source then saves `undefined`, which the store keeps as `null`, and a later save that scans past that entry throws and is caught. The model keeps the recently-played list unchanged and does not represent a `null` entry.
- NowPlaying.Player: the screen's index is a `nat`. The screen only ever sets it to 0, to a found position, or to one step within bounds.
- Notification.Listener: the captured index is a `nat`. A negative index a caller could pass is not modelled.
- TrackOptions.PlayNextInQueue: the case with no native active track is out. There `undefined + 1` is NaN and slips past `moveSong`'s checks. The model treats the press as doing nothing.
- TrackOptions.RawTrack: it reads the song object passed to `TrackPlayer.add` field by field, as the native player would.
- `updateServiceData` assigns to undeclared variables. The model reads that as creating them (sloppy mode). `getServiceData` only reads them back and is not modelled separately; a read before any update, which throws, is out.
- JavaScript strings are UTF-16. The model's strings are sequences of Unicode scalar values, so lengths differ for characters outside the Basic Multilingual Plane.
- The artwork fallbacks are modelled only as far as the thumbnail shapes go: absent, a string, or an object with `url`.
- PlayerService.RemoteSeek: the resume check is modelled as the code evidently intends. Whether `TrackPlayer.State` and `getState` exist in the library version in use is not part of this model.
- The favourites list, liked songs, downloads and the other screens, components/OptionsOnNowPlaying.jsx, the context providers, the Kotlin modules and utils/responsive.ts are not part of this model.
