/**
 * The playback state machine of the simplified controller
 * (js/main.js/Untitled-1.js), as pure transitions. It differs from module
 * Playback: `playSong` always stops the current song, even when it is the one
 * requested; a toggle with nothing selected starts `song1`; `setVolume` does
 * not clamp, so an out-of-range level is stored although every element refuses
 * it; `playSong` does not rewrite the element's volume; and no element reports
 * its natural end to the controller.
 */
module SimplePlayback {
  import opened Media

  /** The first track, which a toggle with nothing selected starts. */
  const FirstSong: SongId := "song1"

  datatype State = State(
    currentSong: Option<SongId>,
    isPlaying: bool,
    volume: real,
    songs: map<SongId, Audio>,
    pending: multiset<Start>)

  /** All registered elements carry one common level, which an element accepts. */
  ghost predicate SharedVolume(songs: map<SongId, Audio>) {
    && (forall k :: k in songs ==> InVolumeRange(songs[k].volume))
    && (forall j, k :: j in songs && k in songs ==> songs[j].volume == songs[k].volume)
  }

  /**
   * What every reachable state satisfies. Unlike Playback.Inv, the stored
   * volume is not bounded, and the elements carry it only when it is in range.
   */
  ghost predicate Inv(s: State) {
    && s.songs.Keys <= TrackIds
    && (s.currentSong.Some? ==> s.currentSong.value in s.songs)
    && (s.currentSong.None? ==> !s.isPlaying && s.pending == multiset{})
    && (forall st :: st in s.pending ==> st.song in s.songs)
    && OnlyCurrentStarted(s.songs, s.currentSong)
    && SharedVolume(s.songs)
    && (InVolumeRange(s.volume) ==> UniformVolume(s.songs, s.volume))
  }

  /** The state after `setupAudioElements` on a page holding the elements `present`. */
  function Init(present: set<string>): (s: State)
    ensures s.songs.Keys == present * TrackIds
    ensures s.currentSong == None && !s.isPlaying && s.volume == DefaultVolume
    ensures Inv(s)
  {
    State(None, false, DefaultVolume, Registered(present), multiset{})
  }

  /** True when `playSong` first stops the current song: whenever it is registered. */
  predicate HasCurrent(s: State) {
    Truthy(s.currentSong) && s.currentSong.value in s.songs
  }

  /** The elements after the first step of `playSong`. */
  function StopCurrent(s: State): (songs: map<SongId, Audio>)
    ensures songs.Keys == s.songs.Keys
    ensures forall k :: k in songs ==>
              songs[k] == if HasCurrent(s) && k == s.currentSong.value then Stopped(s.songs[k]) else s.songs[k]
  {
    if HasCurrent(s)
    then s.songs[s.currentSong.value := Stopped(s.songs[s.currentSong.value])]
    else s.songs
  }

  /**
   * `playSong(id)`: stop the current song, whichever it is; then, if `id` is
   * registered, make it current and request playback.
   */
  function PlaySong(s: State, id: SongId): (r: State)
    ensures r.songs.Keys == s.songs.Keys && r.volume == s.volume && r.isPlaying == s.isPlaying
    ensures HasCurrent(s) ==> r.songs[s.currentSong.value].position == 0
    ensures HasCurrent(s) && s.currentSong.value != id ==>
              var cur := s.currentSong.value;
              r.songs[cur] == Stopped(s.songs[cur]) && r.songs[cur].paused
    ensures id !in s.songs ==> r.currentSong == s.currentSong && r.pending == s.pending
    ensures id in s.songs ==>
              && r.currentSong == Some(id)
              && r.songs[id] ==
                   Resumed(if HasCurrent(s) && s.currentSong.value == id then Stopped(s.songs[id]) else s.songs[id])
              && !r.songs[id].paused
              && r.songs[id].volume == s.songs[id].volume
              && r.pending == s.pending + multiset{Start(id, true)}
    ensures forall k :: k in s.songs && k != id && Some(k) != s.currentSong ==> r.songs[k] == s.songs[k]
  {
    var songs := StopCurrent(s);
    if id in songs then
      s.(currentSong := Some(id),
         songs := songs[id := Resumed(songs[id])],
         pending := s.pending + multiset{Start(id, true)})
    else
      s.(songs := songs)
  }

  /** After the first step of `playSong` every registered element is paused. */
  lemma StopCurrentPausesAll(s: State)
    requires Inv(s)
    ensures var songs := StopCurrent(s);
            && SharedVolume(songs)
            && (InVolumeRange(s.volume) ==> UniformVolume(songs, s.volume))
            && forall k :: k in songs ==> songs[k].paused
  {
    NoEmptyTrackId();
  }

  lemma PlayRegisteredKeepsInv(s: State, id: SongId)
    requires Inv(s) && id in s.songs
    ensures Inv(PlaySong(s, id))
  {
    StopCurrentPausesAll(s);
    var songs := StopCurrent(s);
    var r := PlaySong(s, id);
    assert r.songs == songs[id := Resumed(songs[id])];
    assert forall k :: k in r.songs ==> r.songs[k].volume == songs[k].volume;
  }

  lemma PlaySongKeepsInv(s: State, id: SongId)
    ensures Inv(s) ==> Inv(PlaySong(s, id))
  {
    if Inv(s) {
      if id in s.songs {
        PlayRegisteredKeepsInv(s, id);
      } else {
        StopCurrentPausesAll(s);
        assert PlaySong(s, id) == s.(songs := StopCurrent(s));
      }
    }
  }

  /** Replaying the current song restarts it from position 0. */
  lemma ReplayRestarts(s: State)
    requires HasCurrent(s)
    ensures var cur := s.currentSong.value;
            var r := PlaySong(s, cur);
            r.currentSong == s.currentSong && !r.songs[cur].paused && r.songs[cur].position == 0
  {
  }

  /** Unlike Playback.ReplayResumes: replaying a song that has played 30 seconds rewinds it to 0. */
  lemma ReplayRewinds(present: set<string>, a: SongId)
    requires a in present * TrackIds
    ensures var s1 := PlaySong(Init(present), a);
            a in s1.songs &&
            var s2 := PlaySong(Advance(s1, a, 30), a);
            && Advance(s1, a, 30).songs[a].position == 30
            && s2.currentSong == Some(a) && !s2.songs[a].paused && s2.songs[a].position == 0
  {
    NoEmptyTrackId();
  }

  /**
   * `togglePlayPause()`: with nothing selected, the same as `playSong('song1')`;
   * with an unregistered current song, nothing; otherwise pause and clear the
   * flag, or request playback and leave the flag to the start's resolution.
   */
  function TogglePlayPause(s: State): (r: State)
    ensures !Truthy(s.currentSong) ==> r == PlaySong(s, FirstSong)
    ensures Truthy(s.currentSong) && s.currentSong.value !in s.songs ==> r == s
    ensures HasCurrent(s) ==>
              var cur := s.currentSong.value;
              && r.currentSong == s.currentSong && r.volume == s.volume
              && r.songs.Keys == s.songs.Keys
              && !r.isPlaying
              && r.songs[cur] == (if s.isPlaying then s.songs[cur].(paused := true) else Resumed(s.songs[cur]))
              && r.songs[cur].paused == s.isPlaying
              && r.songs[cur].position == s.songs[cur].position
              && r.pending == (if s.isPlaying then s.pending else s.pending + multiset{Start(cur, true)})
              && forall k :: k in s.songs && k != cur ==> r.songs[k] == s.songs[k]
    ensures Inv(s) ==> Inv(r)
  {
    if !Truthy(s.currentSong) then PlaySongKeepsInv(s, FirstSong); PlaySong(s, FirstSong)
    else
      var cur := s.currentSong.value;
      if cur !in s.songs then s
      else if s.isPlaying then
        s.(songs := s.songs[cur := s.songs[cur].(paused := true)], isPlaying := false)
      else
        s.(songs := s.songs[cur := Resumed(s.songs[cur])],
           pending := s.pending + multiset{Start(cur, true)})
  }

  /**
   * True when `setVolume(level)` throws: the level is out of range and there
   * is an element, whose setter then raises `IndexSizeError` on the first write.
   */
  predicate VolumeThrows(s: State, level: real) {
    !InVolumeRange(level) && s.songs != map[]
  }

  /**
   * `setVolume(level)`: stores `level` as given, then writes it to every
   * registered element. An out-of-range level makes the first write throw, so
   * then no element changes and the exception leaves `setVolume`.
   */
  function SetVolume(s: State, level: real): (r: State)
    ensures r.volume == level
    ensures r.songs.Keys == s.songs.Keys
    ensures !VolumeThrows(s, level) ==> UniformVolume(r.songs, level)
    ensures VolumeThrows(s, level) ==> r.songs == s.songs
    ensures forall k :: k in s.songs ==>
              r.songs[k].paused == s.songs[k].paused && r.songs[k].position == s.songs[k].position
    ensures r.currentSong == s.currentSong && r.isPlaying == s.isPlaying && r.pending == s.pending
    ensures Inv(s) ==> Inv(r)
  {
    if VolumeThrows(s, level) then s.(volume := level)
    else s.(volume := level, songs := WithVolume(s.songs, level))
  }

  /** `toggleMute()`: `setVolume(0.7)` when the volume is exactly 0, `setVolume(0)` otherwise. */
  function ToggleMute(s: State): (r: State)
    ensures r.volume == (if s.volume == 0.0 then DefaultVolume else 0.0)
    ensures r.songs.Keys == s.songs.Keys && UniformVolume(r.songs, r.volume)
    ensures forall k :: k in s.songs ==>
              r.songs[k].paused == s.songs[k].paused && r.songs[k].position == s.songs[k].position
    ensures r.currentSong == s.currentSong && r.isPlaying == s.isPlaying && r.pending == s.pending
    ensures Inv(s) ==> Inv(r)
  {
    SetVolume(s, if s.volume == 0.0 then DefaultVolume else 0.0)
  }

  /** The `.then` of an outstanding start sets the flag, whatever is current by then. */
  function ResolveStart(s: State, st: Start): (r: State)
    requires st in s.pending
    ensures r.isPlaying
    ensures r.currentSong == s.currentSong && r.volume == s.volume && r.songs == s.songs
    ensures r.pending == s.pending - multiset{st}
    ensures Inv(s) ==> Inv(r)
  {
    s.(isPlaying := true, pending := s.pending - multiset{st})
  }

  /** The `.catch` of an outstanding start only logs. */
  function RejectStart(s: State, st: Start): (r: State)
    requires st in s.pending
    ensures r.isPlaying == s.isPlaying && r.currentSong == s.currentSong
    ensures r.volume == s.volume && r.songs == s.songs
    ensures r.pending == s.pending - multiset{st}
    ensures Inv(s) ==> Inv(r)
  {
    s.(pending := s.pending - multiset{st})
  }

  /**
   * The observer callback for a section that became visible, given its
   * `data-song` attribute: play it when it is set and is not the current song.
   */
  function OnSectionVisible(s: State, dataSong: Option<string>): (r: State)
    ensures !Truthy(dataSong) || dataSong == s.currentSong ==> r == s
    ensures Truthy(dataSong) && dataSong != s.currentSong ==> r == PlaySong(s, dataSong.value)
    ensures Inv(s) ==> Inv(r)
  {
    if Truthy(dataSong) && dataSong != s.currentSong then PlaySongKeepsInv(s, dataSong.value); PlaySong(s, dataSong.value)
    else s
  }

  /** The click listener of a section: play its `data-song` when it is set, even if current. */
  function OnSectionClicked(s: State, dataSong: Option<string>): (r: State)
    ensures !Truthy(dataSong) ==> r == s
    ensures Truthy(dataSong) ==> r == PlaySong(s, dataSong.value)
    ensures Inv(s) ==> Inv(r)
  {
    if Truthy(dataSong) then PlaySongKeepsInv(s, dataSong.value); PlaySong(s, dataSong.value)
    else s
  }

  /** Seeing the same section again changes nothing. */
  lemma SectionVisibleIdempotent(s: State, dataSong: Option<string>)
    ensures OnSectionVisible(OnSectionVisible(s, dataSong), dataSong) == OnSectionVisible(s, dataSong)
  {
    if Truthy(dataSong) && dataSong != s.currentSong && dataSong.value !in s.songs {
      var r := PlaySong(s, dataSong.value);
      var r2 := PlaySong(r, dataSong.value);
      assert r2.songs == r.songs;
    }
  }

  /** Two mutes from a custom non-zero level end at 0.7, not at that level. */
  lemma ToggleMuteTwice(s: State)
    requires s.volume != 0.0
    ensures ToggleMute(ToggleMute(s)).volume == DefaultVolume
  {
  }

  /** The host plays a started element `seconds` further; the controller sees nothing of it. */
  function Advance(s: State, id: SongId, seconds: nat): (r: State)
    requires id in s.songs
    ensures r.songs.Keys == s.songs.Keys && r.songs[id].position == s.songs[id].position + seconds
    ensures r.songs[id].paused == s.songs[id].paused && r.songs[id].volume == s.songs[id].volume
    ensures forall k :: k in s.songs && k != id ==> r.songs[k] == s.songs[k]
    ensures r.currentSong == s.currentSong && r.isPlaying == s.isPlaying
    ensures r.volume == s.volume && r.pending == s.pending
    ensures Inv(s) ==> Inv(r)
  {
    var r := s.(songs := s.songs[id := Played(s.songs[id], seconds)]);
    assert forall k :: k in r.songs ==> r.songs[k].volume == s.songs[k].volume && r.songs[k].paused == s.songs[k].paused;
    r
  }

  /** The events the page and its elements deliver to this controller. */
  datatype Event =
    | Play(id: SongId)
    | TogglePlay
    | Volume(level: real)
    | Mute
    | Resolved(start: Start)
    | Rejected(start: Start)
    | SectionVisible(dataSong: Option<string>)
    | SectionClicked(dataSong: Option<string>)
    | Progress(song: SongId, seconds: nat)

  /** Only an outstanding promise can settle, and only a started element advances. */
  predicate Enabled(s: State, e: Event) {
    match e
    case Resolved(st) => st in s.pending
    case Rejected(st) => st in s.pending
    case Progress(id, _) => id in s.songs && !s.songs[id].paused
    case _ => true
  }

  function Step(s: State, e: Event): (r: State)
    requires Enabled(s, e)
    ensures Inv(s) ==> Inv(r)
  {
    match e
    case Play(id) => PlaySongKeepsInv(s, id); PlaySong(s, id)
    case TogglePlay => TogglePlayPause(s)
    case Volume(level) => SetVolume(s, level)
    case Mute => ToggleMute(s)
    case Resolved(st) => ResolveStart(s, st)
    case Rejected(st) => RejectStart(s, st)
    case SectionVisible(d) => OnSectionVisible(s, d)
    case SectionClicked(d) => OnSectionClicked(s, d)
    case Progress(id, seconds) => Advance(s, id, seconds)
  }

  predicate Admissible(s: State, es: seq<Event>)
    decreases |es|
  {
    es == [] || (Enabled(s, es[0]) && Admissible(Step(s, es[0]), es[1..]))
  }

  function Run(s: State, es: seq<Event>): (r: State)
    requires Admissible(s, es)
    decreases |es|
  {
    if es == [] then s else Run(Step(s, es[0]), es[1..])
  }

  lemma {:induction false} RunPreservesInv(s: State, es: seq<Event>)
    requires Inv(s) && Admissible(s, es)
    ensures Inv(Run(s, es))
    decreases |es|
  {
    if es != [] {
      RunPreservesInv(Step(s, es[0]), es[1..]);
    }
  }

  /**
   * In every reachable state at most one element is started and not stopped,
   * nothing selected means not playing, and all elements carry one level in
   * [0, 1], the stored volume whenever that is in range.
   */
  lemma {:induction false} Reachable(present: set<string>, es: seq<Event>, a: SongId, b: SongId)
    requires Admissible(Init(present), es)
    ensures var r := Run(Init(present), es);
            && (r.currentSong == None ==> !r.isPlaying)
            && (a in r.songs && b in r.songs && !r.songs[a].paused && !r.songs[b].paused ==> a == b)
            && (a in r.songs ==> InVolumeRange(r.songs[a].volume))
            && (a in r.songs && b in r.songs ==> r.songs[a].volume == r.songs[b].volume)
            && (a in r.songs && InVolumeRange(r.volume) ==> r.songs[a].volume == r.volume)
  {
    RunPreservesInv(Init(present), es);
    var r := Run(Init(present), es);
    if a in r.songs && b in r.songs && !r.songs[a].paused && !r.songs[b].paused {
      AtMostOneStarted(r.songs, r.currentSong, a, b);
    }
  }

  /**
   * Without clamping, a reachable volume can leave [0, 1]; the elements refuse
   * it and keep the level they had.
   */
  lemma VolumeUnbounded(present: set<string>)
    ensures Run(Init(present), [Volume(1.7)]).volume == 1.7
    ensures Run(Init(present), [Volume(1.7)]).songs == Init(present).songs
  {
    assert Admissible(Init(present), [Volume(1.7)]) by {
      assert [Volume(1.7)][1..] == [];
    }
  }
}
