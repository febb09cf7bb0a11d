# Signature: The Awakening — audio controller and scroll triggers in Dafny

The page plays a fixed playlist of eleven tracks (`song1` … `song11`). Playback
is driven by an `AudioController` and, on the main page, a `ScrollTriggers`
dispatcher that starts a track once when its panel scrolls into view. The
repository holds two variants of the controller, and they disagree in several
places. They are modelled separately:

- **Main controller** (`Untitled-1.js`). `Playback` (playback.dfy) is the state
  machine as pure transitions on a `State` value. `Player.AudioController`
  (player.dfy) is the same controller as a class whose methods update
  `currentSong`, `isPlaying`, `volume`, the map of registered elements and the
  set of outstanding starts in place. Each method is proved equal to its
  transition.
- **Dispatcher** (`Untitled-1.js`). `Triggers` (triggers.dfy) holds the static
  `songMap`, one intersection event, and a whole sequence of them with the
  `playSong` calls made. `Scroll.ScrollTriggers` (scroll.dfy) is the object that
  owns the fired keys and the `visible` marks. It calls a
  `Player.AudioController`.
- **Simplified controller** (`js/main.js/Untitled-1.js`). `SimplePlayback`
  (simple_playback.dfy) and `SimplePlayer.AudioController` (simple_player.dfy)
  play the same two roles. The observer callback and the section click
  listener, both closures inside that class, are methods of it.

Shared values live in `Media` (media.dfy). An element is an `Audio` record
(`paused`, `position`, `volume`): what the controller last wrote to it. An
element with `paused == false` has been started and not stopped. A missing
element is an absent key. `audio.play()` has two halves. The operation that
calls it adds a `Start` to `pending`. The host settles that promise later
through `ResolveStart` (the `.then`) or `RejectStart` (the `.catch`), in any
order it likes. The host also plays a started element on (`Advance`, the
`Progress` event), which is what makes the rewinds of `playSong` visible.

Proved about both controllers. Every reachable state (all admissible event
sequences from start-up) satisfies:

- at most one element is started and not stopped;
- nothing selected means not playing, with no outstanding start;
- the current song is registered.

The main controller also keeps its volume in [0, 1], and every element carries
that volume. The simplified one does not clamp. An element's `volume` setter
throws `IndexSizeError` for a level outside [0, 1], so there an out-of-range
`setVolume` stores the level but fails on its first write and changes no
element. What it keeps instead: all elements share one level in [0, 1], and
that level is the stored volume whenever the stored volume is in range. For
the dispatcher: the fired keys only grow,
`visible` marks are never removed, and every song section seen is marked.
Over the dispatcher's life each mapped key that is seen makes exactly one
`playSong` call, and a key missing from `songMap` never makes one.

Several behaviours of the code are easy to misread, and the model follows the
code in each:

- `playSong` stops the previous song before it checks that the requested track
  exists. A request for a missing track therefore stops the music, yet keeps
  `currentSong` and `isPlaying` (`Playback.MissingTrackSilences`).
- Neither variant ignores a stale start. Any resolution sets `isPlaying`,
  whatever is current by then (`Playback.StaleResolution`).
- The simplified variant does not clamp `setVolume`. An out-of-range level is
  stored while every element keeps its old level
  (`SimplePlayback.VolumeUnbounded`).
- Replaying the current song resumes it where it was in the main variant
  (`Playback.ReplayResumes`). It rewinds it to 0 in the simplified one
  (`SimplePlayback.ReplayRewinds`).
- The simplified variant registers no `ended` listener, so a natural end never
  clears `isPlaying` there.
- In the main variant a resume sets `isPlaying` at once, before the start
  settles. A rejected resume leaves it true.

## Model

| member | source | states |
|---|---|---|
| Media.AtMostOneStarted | Untitled-1.js:78-85 | when only the current song may be unpaused, two unpaused registered elements are the same one |
| Playback.Init | Untitled-1.js:9-48 | start-up registers exactly the present elements among song1..song11, nothing is selected or playing, volume is 0.7, and the invariant holds |
| Playback.PlaySong | Untitled-1.js:74-111 | a different, registered current song becomes exactly its stopped self: paused, at position 0, its level kept; replaying the current song keeps its position; an unregistered id leaves the selection and the outstanding starts alone; a registered id becomes current and its element is exactly the old one unpaused at the stored volume, its position kept, with one new start; the playing flag never changes synchronously; other elements are untouched |
| Playback.PlaySongKeepsInv | Untitled-1.js:77-95 | playSong keeps the invariant: after it only the requested song can be started, and every element still carries the stored volume |
| Playback.TogglePlayPause | Untitled-1.js:113-133 | with no current song, or an unregistered one, nothing changes; otherwise the flag flips at once and the current element is exactly the old one paused (when playing) or unpaused (when not), its position and level kept; a resume adds a start whose resolution does nothing; the invariant is kept |
| Playback.SetVolume | Untitled-1.js:154-162 | the stored volume is the level clamped to [0, 1] (itself inside, 0 below, 1 above) and is written to every registered element, not only the current one; nothing else changes |
| Playback.ToggleMute | Untitled-1.js:135-152 | a volume of exactly 0 becomes 0.7 and any other becomes 0, on every registered element; nothing else changes |
| Playback.OnSongEnd | Untitled-1.js:184-188 | the flag is cleared and the current song stays selected |
| Playback.ResolveStart | Untitled-1.js:98-104 | settling an outstanding start removes it and sets the flag if its continuation does so, with no check that its song is still current |
| Playback.RejectStart | Untitled-1.js:105-109 | a rejected start is removed and leaves the flag, the selection and every element as they were |
| Playback.Step | Untitled-1.js:36-69 | every event the page or an element delivers, including the `ended` event and the element's own progress, keeps the invariant |
| Playback.RunPreservesInv | Untitled-1.js:74-188 | any admissible sequence of events from a state satisfying the invariant ends in one that satisfies it |
| Playback.Reachable | Untitled-1.js:74-188 | in every reachable state at most one element is started, the volume is in [0, 1], and nothing selected means not playing |
| Playback.ToggleMuteTwice | Untitled-1.js:135-142 | two mutes from a non-zero level pass through 0 and end at 0.7, not at that level |
| Playback.MissingTrackSilences | Untitled-1.js:78-91 | a request for an unregistered track keeps the selection and the flag but leaves every element paused |
| Playback.StaleResolution | Untitled-1.js:98-104 | after switching from a to b, rejecting b's start and resolving a's leaves the flag set with b current and a paused |
| Playback.SwitchAway | Untitled-1.js:77-104 | from current song a, playing b pauses a and rewinds it to 0 and starts b; b's resolution sets the flag, and b's end clears it with b still selected |
| Playback.SwitchScenario | Untitled-1.js:74-111 | from start-up: play a and resolve, a plays 30 seconds, play b: a is paused and back at 0, b is current and started |
| Playback.ReplayResumes | Untitled-1.js:77-99 | from start-up: play a, a plays 30 seconds, play a again: a is still current and started, and still at 30 |
| Player.AudioController.constructor | Untitled-1.js:9-48 | the object starts in the state Playback.Init describes |
| Player.AudioController.PlaySong | Untitled-1.js:74-111 | the fields are updated as Playback.PlaySong describes and the invariant is kept |
| Player.AudioController.TogglePlayPause | Untitled-1.js:113-133 | the fields are updated as Playback.TogglePlayPause describes and the invariant is kept |
| Player.AudioController.ApplyVolume | Untitled-1.js:157-159 | the loop writes the stored volume to every registered element and changes nothing else |
| Player.AudioController.ToggleMute | Untitled-1.js:135-142 | the fields are updated as Playback.ToggleMute describes and the invariant is kept |
| Player.AudioController.SetVolume | Untitled-1.js:154-159 | the fields are updated as Playback.SetVolume describes and the invariant is kept |
| Player.AudioController.OnSongEnd | Untitled-1.js:184-188 | the fields are updated as Playback.OnSongEnd describes |
| Player.AudioController.ResolveStart | Untitled-1.js:101-104 | the fields are updated as Playback.ResolveStart describes |
| Player.AudioController.RejectStart | Untitled-1.js:105-109 | the fields are updated as Playback.RejectStart describes |
| Triggers.Lookup | Untitled-1.js:253-267 | a key has a track exactly when it is in songMap, and that track is one of song1..song11 |
| Triggers.HandleIntersection | Untitled-1.js:239-285 | a song section enters the visible marks; a call is made exactly when the panel's key is mapped and not yet fired, and then it plays the mapped track and adds the key; otherwise the keys are unchanged |
| Triggers.Dispatch | Untitled-1.js:239-285 | over a sequence of events the keys and the visible marks only grow, the new keys are exactly those of the calls made, no two calls share a key, and every call plays its key's mapped track |
| Triggers.DispatchCovers | Untitled-1.js:239-274 | over a sequence of events the visible marks become the old ones plus every song section seen, and the keys fired are exactly the mapped keys seen that had not fired before |
| Triggers.MappedKeyFiresOnce | Untitled-1.js:267-274 | from a fresh dispatcher, every mapped key that appears in the events makes exactly one playSong call |
| Triggers.SectionsMarked | Untitled-1.js:241-245 | every song section among the events ends up marked visible |
| Triggers.AtMostOncePerKey | Untitled-1.js:269-274 | from a fresh dispatcher, each key is behind at most one playSong call |
| Triggers.AbsentKeyNeverPlays | Untitled-1.js:267-269 | a key missing from songMap is behind no call |
| Triggers.SeenThreeTimes | Untitled-1.js:269-271 | one mapped panel becoming visible three times makes exactly one call, to its mapped track |
| Scroll.ScrollTriggers.constructor | Untitled-1.js:193-198 | the dispatcher starts with no fired keys, no marks and no calls, bound to the given controller |
| Scroll.ScrollTriggers.HandleIntersection | Untitled-1.js:239-285 | the keys and marks become those of Triggers.HandleIntersection, the call it makes is logged, and the controller performs Playback.PlaySong for it or is left unchanged |
| SimplePlayback.Init | js/main.js/Untitled-1.js:3-41 | start-up registers the present elements at volume 0.7 with nothing selected or playing, and the invariant holds |
| SimplePlayback.PlaySong | js/main.js/Untitled-1.js:93-112 | a registered current song other than the requested one becomes exactly its stopped self; a registered id becomes current and its element is the old one unpaused, first rewound to 0 if it was the current song, with one new start; an unregistered id leaves the selection alone; the flag never changes synchronously; other elements are untouched |
| SimplePlayback.PlaySongKeepsInv | js/main.js/Untitled-1.js:94-104 | playSong keeps the invariant: after it only the requested song can be started |
| SimplePlayback.ReplayRestarts | js/main.js/Untitled-1.js:95-103 | requesting the current song again keeps it current and restarts it from position 0 |
| SimplePlayback.ReplayRewinds | js/main.js/Untitled-1.js:93-104 | from start-up: play a, a plays 30 seconds, play a again: a is current and started, back at position 0 |
| SimplePlayback.TogglePlayPause | js/main.js/Untitled-1.js:114-136 | with nothing selected it is playSong('song1'); with an unregistered current song nothing changes; otherwise the current element is exactly the old one paused or unpaused, its position and level kept; a pause clears the flag and a resume adds a start but leaves the flag false until it resolves |
| SimplePlayback.SetVolume | js/main.js/Untitled-1.js:138-145 | the level is stored as given, without clamping; a level in [0, 1], or any level with no element, is written to every registered element; an out-of-range level with an element throws on the first write and leaves every element as it was; playback state is untouched and the invariant is kept |
| SimplePlayback.ToggleMute | js/main.js/Untitled-1.js:147-150 | a volume of exactly 0 becomes 0.7 and any other becomes 0, on every registered element, whose paused state and position are kept; nothing else changes |
| SimplePlayback.ResolveStart | js/main.js/Untitled-1.js:104-107 | settling an outstanding start removes it and sets the flag, whatever is current |
| SimplePlayback.RejectStart | js/main.js/Untitled-1.js:108-110 | a rejected start is removed and changes nothing else |
| SimplePlayback.OnSectionVisible | js/main.js/Untitled-1.js:76-84 | a visible section plays its data-song only when that is set and differs from the current song; otherwise nothing changes |
| SimplePlayback.OnSectionClicked | js/main.js/Untitled-1.js:64-70 | a clicked section plays its data-song whenever it is set, even when it is current |
| SimplePlayback.SectionVisibleIdempotent | js/main.js/Untitled-1.js:79-82 | the same section becoming visible twice in a row has the effect of once |
| SimplePlayback.ToggleMuteTwice | js/main.js/Untitled-1.js:147-150 | two mutes from a non-zero level end at 0.7 |
| SimplePlayback.Step | js/main.js/Untitled-1.js:44-90 | every event the page or an element delivers, including the element's own progress, keeps the invariant |
| SimplePlayback.RunPreservesInv | js/main.js/Untitled-1.js:93-150 | any admissible sequence of events from a state satisfying the invariant ends in one that satisfies it |
| SimplePlayback.Reachable | js/main.js/Untitled-1.js:93-150 | in every reachable state at most one element is started, nothing selected means not playing, all elements share one level in [0, 1], and that level is the stored volume whenever the stored volume is in range |
| SimplePlayback.VolumeUnbounded | js/main.js/Untitled-1.js:138-144 | setting the volume to 1.7 from start-up stores 1.7 while every element keeps its level |
| SimplePlayer.AudioController.constructor | js/main.js/Untitled-1.js:3-41 | the object starts in the state SimplePlayback.Init describes |
| SimplePlayer.AudioController.PlaySong | js/main.js/Untitled-1.js:93-112 | the fields are updated as SimplePlayback.PlaySong describes and the invariant is kept |
| SimplePlayer.AudioController.TogglePlayPause | js/main.js/Untitled-1.js:114-136 | the fields are updated as SimplePlayback.TogglePlayPause describes and the invariant is kept |
| SimplePlayer.AudioController.SetVolume | js/main.js/Untitled-1.js:138-145 | the fields are updated as SimplePlayback.SetVolume describes, the invariant is kept, and the result says whether the element's `IndexSizeError` escaped |
| SimplePlayer.AudioController.ApplyVolume | js/main.js/Untitled-1.js:140-144 | the loop writes an in-range level to every non-null element; with an out-of-range level it throws at the first element and changes none; nothing else changes |
| SimplePlayer.AudioController.ToggleMute | js/main.js/Untitled-1.js:147-150 | the fields are updated as SimplePlayback.ToggleMute describes |
| SimplePlayer.AudioController.ResolveStart | js/main.js/Untitled-1.js:104-107 | the fields are updated as SimplePlayback.ResolveStart describes |
| SimplePlayer.AudioController.RejectStart | js/main.js/Untitled-1.js:108-110 | the fields are updated as SimplePlayback.RejectStart describes |
| SimplePlayer.AudioController.OnSectionVisible | js/main.js/Untitled-1.js:76-84 | the fields are updated as SimplePlayback.OnSectionVisible describes |
| SimplePlayer.AudioController.OnSectionClicked | js/main.js/Untitled-1.js:64-70 | the fields are updated as SimplePlayback.OnSectionClicked describes |

## Left out

- DOM lookups, listener registration and observer construction are left out: `getElementById`, `querySelectorAll`, `addEventListener`, `IntersectionObserver` with its threshold and root-margin constants, `setupControls`, `observeElements` and `setupAudioElements`. The registered elements are a constructor parameter, and each event is a method.
- Rendering is left out: `updateUI`, `updatePlayButton`, `updateCurrentSong`, the volume-slider writes in `toggleMute`, and the song-title tables. They only rewrite text and titles.
- The `triggered` CSS pulse and its `setTimeout` removal are left out. They are timer-driven and do not touch playback state.
- Console logging, `initSmoothScroll`, the autoplay-unlock listeners in `onPageLoad` and the `window.signatureDebug` helper are left out. They are I/O or debug plumbing.
- Audio decoding, buffering and `preload` are left out. A record holds what the controller wrote to it plus the position the host's playback has reached (`Advance`). A natural end or a rejected start does not pause it in the model.
- The `IndexSizeError` of an out-of-range volume is an out-value of `SimplePlayer.AudioController.SetVolume`, not an exception. Nothing in the simplified controller catches it, and its only other caller, `toggleMute`, passes 0 or 0.7, which never throw.
- Volume is a mathematical real, not an IEEE double. The slider's `value / 100` conversion is left out. The unused `currentTime`/`duration` fields of the simplified controller are left out too.
- The `playPromise !== undefined` test is left out. Every `play()` is taken to return a promise.
- Property lookups that JavaScript resolves through `Object.prototype` are left out. Such lookups are `songMap['constructor']` and `this.songs['toString']`. A lookup is a key of the table or nothing.
- Settlement order is not modelled. The host may settle outstanding starts in any order, and either way for each.
