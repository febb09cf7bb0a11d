/**
 * Values shared by both audio controllers and the scroll-trigger dispatcher:
 * track ids, the record the controller keeps about one audio element, and an
 * outstanding `audio.play()` promise.
 */
module Media {

  datatype Option<T> = None | Some(value: T)

  /** A track id, the `id` attribute of an `<audio>` element. */
  type SongId = string

  /** The eleven ids the page defines, `song1` ... `song11`. */
  const TrackIds: set<SongId> := {
    "song1", "song2", "song3", "song4", "song5", "song6",
    "song7", "song8", "song9", "song10", "song11"
  }

  /** Volume both controllers start with, and the level an unmute restores. */
  const DefaultVolume: real := 0.7

  lemma NoEmptyTrackId()
    ensures "" !in TrackIds
  {
  }

  /** JavaScript truthiness of a nullable string: `null` and `""` are falsy. */
  predicate Truthy(s: Option<string>) {
    s.Some? && s.value != ""
  }

  /**
   * What the controller has last written to one audio element: whether it is
   * paused, its playback position (`currentTime`) and its volume. An element
   * with `paused == false` is one the controller has started and not stopped.
   */
  datatype Audio = Audio(paused: bool, position: nat, volume: real)

  /**
   * A `play()` promise that has not settled yet: the element it was requested
   * on, and whether its `.then` continuation sets `isPlaying`.
   */
  datatype Start = Start(song: SongId, marksPlaying: bool)

  /** `pause()` followed by `currentTime = 0`. */
  function Stopped(a: Audio): (b: Audio) {
    a.(paused := true, position := 0)
  }

  /** The synchronous half of `play()`: the element is no longer paused. */
  function Resumed(a: Audio): (b: Audio) {
    a.(paused := false)
  }

  /** The host's own playback of a started element has moved `seconds` further on. */
  function Played(a: Audio, seconds: nat): (b: Audio) {
    a.(position := a.position + seconds)
  }

  /**
   * The levels an element's `volume` setter accepts; outside them it throws
   * an `IndexSizeError` and keeps its level.
   */
  predicate InVolumeRange(v: real) {
    0.0 <= v <= 1.0
  }

  /** Every registered element after a `forEach` that writes `audio.volume = v`. */
  function WithVolume(songs: map<SongId, Audio>, v: real): (r: map<SongId, Audio>) {
    map k | k in songs :: songs[k].(volume := v)
  }

  /** The elements the controller registered at start-up, before anything was played. */
  function Registered(present: set<string>): (r: map<SongId, Audio>) {
    map k | k in present && k in TrackIds :: Audio(true, 0, DefaultVolume)
  }

  /** Only the current song may be started and not stopped. */
  ghost predicate OnlyCurrentStarted(songs: map<SongId, Audio>, current: Option<SongId>) {
    forall k :: k in songs && !songs[k].paused ==> current == Some(k)
  }

  /** Every registered element carries the controller's volume. */
  ghost predicate UniformVolume(songs: map<SongId, Audio>, v: real) {
    forall k :: k in songs ==> songs[k].volume == v
  }

  /** At most one registered element is started and not stopped. */
  lemma AtMostOneStarted(songs: map<SongId, Audio>, current: Option<SongId>, a: SongId, b: SongId)
    requires OnlyCurrentStarted(songs, current)
    requires a in songs && b in songs && !songs[a].paused && !songs[b].paused
    ensures a == b
  {
  }
}
