/**
 * The playback state machine of the page's main controller (`AudioController`
 * in Untitled-1.js), as pure transitions on a `State` value. The class in
 * player.dfy performs the same transitions by updating its fields in place.
 *
 * A `play()` request has two halves: the operation that issues it adds a
 * `Start` to `pending`, and `ResolveStart` / `RejectStart` later apply its
 * `.then` / `.catch` effects.
 */
module Playback {
  import opened Media

  datatype State = State(
    currentSong: Option<SongId>,
    isPlaying: bool,
    volume: real,
    songs: map<SongId, Audio>,
    pending: multiset<Start>)

  /** What every reachable state satisfies. */
  ghost predicate Inv(s: State) {
    && s.songs.Keys <= TrackIds
    && (s.currentSong.Some? ==> s.currentSong.value in s.songs)
    && (s.currentSong.None? ==> !s.isPlaying && s.pending == multiset{})
    && (forall st :: st in s.pending ==> st.song in s.songs)
    && OnlyCurrentStarted(s.songs, s.currentSong)
    && UniformVolume(s.songs, s.volume)
    && 0.0 <= s.volume <= 1.0
  }

  /** `Math.min` and `Math.max` on reals. */
  function Min(a: real, b: real): (m: real) { if a <= b then a else b }
  function Max(a: real, b: real): (m: real) { if a >= b then a else b }

  /** The state after the constructor has registered the elements found on the page. */
  function Init(present: set<string>): (s: State)
    ensures s.songs.Keys == present * TrackIds
    ensures s.currentSong == None && !s.isPlaying && s.volume == DefaultVolume
    ensures Inv(s)
  {
    State(None, false, DefaultVolume, Registered(present), multiset{})
  }

  /** True when `playSong(id)` first stops the current song. */
  predicate StopsCurrent(s: State, id: SongId) {
    Truthy(s.currentSong) && s.currentSong.value != id && s.currentSong.value in s.songs
  }

  /** The elements after the first step of `playSong(id)`. */
  function StopPrevious(s: State, id: SongId): (songs: map<SongId, Audio>)
    ensures songs.Keys == s.songs.Keys
    ensures forall k :: k in songs ==>
              songs[k] == if StopsCurrent(s, id) && k == s.currentSong.value then Stopped(s.songs[k]) else s.songs[k]
  {
    if StopsCurrent(s, id)
    then s.songs[s.currentSong.value := Stopped(s.songs[s.currentSong.value])]
    else s.songs
  }

  /**
   * `playSong(id)`: stop the current song if it is a different one, then, if
   * `id` is registered, make it current, give it the stored volume and request
   * playback. The playing flag is left to the start's resolution.
   */
  function PlaySong(s: State, id: SongId): (r: State)
    ensures r.songs.Keys == s.songs.Keys && r.volume == s.volume && r.isPlaying == s.isPlaying
    ensures StopsCurrent(s, id) ==>
              var prev := s.currentSong.value;
              r.songs[prev] == Stopped(s.songs[prev]) && r.songs[prev].paused && r.songs[prev].position == 0
    ensures s.currentSong == Some(id) && id in s.songs ==>
              r.songs[id].position == s.songs[id].position
    ensures id !in s.songs ==> r.currentSong == s.currentSong && r.pending == s.pending
    ensures id in s.songs ==>
              && r.currentSong == Some(id)
              && r.songs[id] == Resumed(s.songs[id].(volume := s.volume))
              && !r.songs[id].paused
              && r.songs[id].volume == s.volume
              && r.pending == s.pending + multiset{Start(id, true)}
    ensures forall k :: k in s.songs && k != id && Some(k) != s.currentSong ==> r.songs[k] == s.songs[k]
  {
    var songs := StopPrevious(s, id);
    if id !in songs then
      s.(songs := songs)
    else
      s.(currentSong := Some(id),
         songs := songs[id := Resumed(songs[id].(volume := s.volume))],
         pending := s.pending + multiset{Start(id, true)})
  }

  /** After the first step of `playSong(id)` only `id` itself can still be started. */
  lemma StopPreviousLeavesOnlyId(s: State, id: SongId)
    requires Inv(s)
    ensures var songs := StopPrevious(s, id);
            && UniformVolume(songs, s.volume)
            && forall k :: k in songs && !songs[k].paused ==> k == id && s.currentSong == Some(id)
  {
    NoEmptyTrackId();
  }

  lemma PlayRegisteredKeepsInv(s: State, id: SongId)
    requires Inv(s) && id in s.songs
    ensures Inv(PlaySong(s, id))
  {
    StopPreviousLeavesOnlyId(s, id);
    var songs := StopPrevious(s, id);
    assert PlaySong(s, id).songs == songs[id := Resumed(songs[id].(volume := s.volume))];
  }

  lemma PlaySongKeepsInv(s: State, id: SongId)
    ensures Inv(s) ==> Inv(PlaySong(s, id))
  {
    if Inv(s) {
      if id in s.songs {
        PlayRegisteredKeepsInv(s, id);
      } else {
        StopPreviousLeavesOnlyId(s, id);
        assert PlaySong(s, id) == s.(songs := StopPrevious(s, id));
      }
    }
  }

  /**
   * `togglePlayPause()`: nothing without a registered current song; otherwise
   * pause and clear the flag, or request playback and set the flag at once.
   * The resume's promise has only a `.catch`, so its resolution does nothing.
   */
  function TogglePlayPause(s: State): (r: State)
    ensures !Truthy(s.currentSong) || s.currentSong.value !in s.songs ==> r == s
    ensures r.currentSong == s.currentSong && r.volume == s.volume && r.songs.Keys == s.songs.Keys
    ensures forall k :: k in s.songs && Some(k) != s.currentSong ==> r.songs[k] == s.songs[k]
    ensures Truthy(s.currentSong) && s.currentSong.value in s.songs ==>
              var cur := s.currentSong.value;
              && r.isPlaying == !s.isPlaying
              && r.songs[cur] == (if s.isPlaying then s.songs[cur].(paused := true) else Resumed(s.songs[cur]))
              && r.songs[cur].paused == s.isPlaying
              && r.songs[cur].position == s.songs[cur].position
              && r.pending == (if s.isPlaying then s.pending else s.pending + multiset{Start(cur, false)})
    ensures Inv(s) ==> Inv(r)
  {
    if !Truthy(s.currentSong) then s
    else
      var cur := s.currentSong.value;
      if cur !in s.songs then s
      else if s.isPlaying then
        s.(songs := s.songs[cur := s.songs[cur].(paused := true)], isPlaying := false)
      else
        s.(songs := s.songs[cur := Resumed(s.songs[cur])],
           pending := s.pending + multiset{Start(cur, false)},
           isPlaying := true)
  }

  /** `setVolume(level)`: store `max(0, min(1, level))` and write it to every registered element. */
  function SetVolume(s: State, level: real): (r: State)
    ensures 0.0 <= r.volume <= 1.0
    ensures 0.0 <= level <= 1.0 ==> r.volume == level
    ensures level < 0.0 ==> r.volume == 0.0
    ensures level > 1.0 ==> r.volume == 1.0
    ensures r.songs.Keys == s.songs.Keys && UniformVolume(r.songs, r.volume)
    ensures forall k :: k in s.songs ==>
              r.songs[k].paused == s.songs[k].paused && r.songs[k].position == s.songs[k].position
    ensures r.currentSong == s.currentSong && r.isPlaying == s.isPlaying && r.pending == s.pending
    ensures Inv(s) ==> Inv(r)
  {
    var v := Max(0.0, Min(1.0, level));
    s.(volume := v, songs := WithVolume(s.songs, v))
  }

  /** `toggleMute()`: exactly 0 becomes 0.7, anything else becomes 0, on every registered element. */
  function ToggleMute(s: State): (r: State)
    ensures r.volume == (if s.volume == 0.0 then DefaultVolume else 0.0)
    ensures r.songs.Keys == s.songs.Keys && UniformVolume(r.songs, r.volume)
    ensures forall k :: k in s.songs ==>
              r.songs[k].paused == s.songs[k].paused && r.songs[k].position == s.songs[k].position
    ensures r.currentSong == s.currentSong && r.isPlaying == s.isPlaying && r.pending == s.pending
    ensures Inv(s) ==> Inv(r)
  {
    var v := if s.volume == 0.0 then DefaultVolume else 0.0;
    s.(volume := v, songs := WithVolume(s.songs, v))
  }

  /** `onSongEnd()`: the flag is cleared; the current song stays selected. */
  function OnSongEnd(s: State): (r: State)
    ensures !r.isPlaying
    ensures r.currentSong == s.currentSong && r.volume == s.volume
    ensures r.songs == s.songs && r.pending == s.pending
    ensures Inv(s) ==> Inv(r)
  {
    s.(isPlaying := false)
  }

  /**
   * The `.then` of an outstanding start. There is no check that `st.song` is
   * still current: a stale resolution sets the flag all the same.
   */
  function ResolveStart(s: State, st: Start): (r: State)
    requires st in s.pending
    ensures r.isPlaying == (s.isPlaying || st.marksPlaying)
    ensures r.currentSong == s.currentSong && r.volume == s.volume && r.songs == s.songs
    ensures r.pending == s.pending - multiset{st}
    ensures Inv(s) ==> Inv(r)
  {
    s.(isPlaying := s.isPlaying || st.marksPlaying, pending := s.pending - multiset{st})
  }

  /** The `.catch` of an outstanding start only logs: the flag is left as it is. */
  function RejectStart(s: State, st: Start): (r: State)
    requires st in s.pending
    ensures r.isPlaying == s.isPlaying && r.currentSong == s.currentSong
    ensures r.volume == s.volume && r.songs == s.songs
    ensures r.pending == s.pending - multiset{st}
    ensures Inv(s) ==> Inv(r)
  {
    s.(pending := s.pending - multiset{st})
  }

  /** The host plays a started element `seconds` further; the controller sees nothing of it. */
  function Advance(s: State, id: SongId, seconds: nat): (r: State)
    requires id in s.songs
    ensures r.songs.Keys == s.songs.Keys && r.songs[id].position == s.songs[id].position + seconds
    ensures r.songs[id].paused == s.songs[id].paused && r.songs[id].volume == s.songs[id].volume
    ensures forall k :: k in s.songs && k != id ==> r.songs[k] == s.songs[k]
    ensures r.currentSong == s.currentSong && r.isPlaying == s.isPlaying
    ensures r.volume == s.volume && r.pending == s.pending
    ensures Inv(s) ==> Inv(r)
  {
    s.(songs := s.songs[id := Played(s.songs[id], seconds)])
  }

  /** The events the page and its elements deliver to the controller. */
  datatype Event =
    | Play(id: SongId)
    | TogglePlay
    | Volume(level: real)
    | Mute
    | Ended
    | Resolved(start: Start)
    | Rejected(start: Start)
    | Progress(song: SongId, seconds: nat)

  /** Only an outstanding promise can settle, and only a started element advances. */
  predicate Enabled(s: State, e: Event) {
    match e
    case Resolved(st) => st in s.pending
    case Rejected(st) => st in s.pending
    case Progress(id, _) => id in s.songs && !s.songs[id].paused
    case _ => true
  }

  function Step(s: State, e: Event): (r: State)
    requires Enabled(s, e)
    ensures Inv(s) ==> Inv(r)
  {
    match e
    case Play(id) => PlaySongKeepsInv(s, id); PlaySong(s, id)
    case TogglePlay => TogglePlayPause(s)
    case Volume(level) => SetVolume(s, level)
    case Mute => ToggleMute(s)
    case Ended => OnSongEnd(s)
    case Resolved(st) => ResolveStart(s, st)
    case Rejected(st) => RejectStart(s, st)
    case Progress(id, seconds) => Advance(s, id, seconds)
  }

  /** Every event of `es` is enabled when it arrives. */
  predicate Admissible(s: State, es: seq<Event>)
    decreases |es|
  {
    es == [] || (Enabled(s, es[0]) && Admissible(Step(s, es[0]), es[1..]))
  }

  function Run(s: State, es: seq<Event>): (r: State)
    requires Admissible(s, es)
    decreases |es|
  {
    if es == [] then s else Run(Step(s, es[0]), es[1..])
  }

  lemma {:induction false} RunPreservesInv(s: State, es: seq<Event>)
    requires Inv(s) && Admissible(s, es)
    ensures Inv(Run(s, es))
    decreases |es|
  {
    if es != [] {
      RunPreservesInv(Step(s, es[0]), es[1..]);
    }
  }

  /**
   * In every state the page can reach: at most one element is started and not
   * stopped, the volume lies in [0, 1], and nothing selected means not playing.
   */
  lemma {:induction false} Reachable(present: set<string>, es: seq<Event>, a: SongId, b: SongId)
    requires Admissible(Init(present), es)
    ensures var r := Run(Init(present), es);
            && 0.0 <= r.volume <= 1.0
            && (r.currentSong == None ==> !r.isPlaying)
            && (a in r.songs && b in r.songs && !r.songs[a].paused && !r.songs[b].paused ==> a == b)
  {
    RunPreservesInv(Init(present), es);
    var r := Run(Init(present), es);
    if a in r.songs && b in r.songs && !r.songs[a].paused && !r.songs[b].paused {
      AtMostOneStarted(r.songs, r.currentSong, a, b);
    }
  }

  /** Two mutes from a custom non-zero level end at 0.7, not at that level. */
  lemma ToggleMuteTwice(s: State)
    requires s.volume != 0.0
    ensures ToggleMute(s).volume == 0.0
    ensures ToggleMute(ToggleMute(s)).volume == DefaultVolume
  {
  }

  /**
   * A request for an unregistered track stops the current song but keeps it
   * selected and keeps the flag: it may still say playing with nothing started.
   */
  lemma MissingTrackSilences(s: State, id: SongId)
    requires Inv(s) && id !in s.songs
    ensures var r := PlaySong(s, id);
            && r.currentSong == s.currentSong && r.isPlaying == s.isPlaying
            && forall k :: k in r.songs ==> r.songs[k].paused
  {
  }

  /**
   * After switching from `a` to `b`, `a`'s earlier start may still resolve:
   * the flag says playing although `b`'s own start was rejected.
   */
  lemma StaleResolution(s: State, a: SongId, b: SongId)
    requires Inv(s) && a in s.songs && b in s.songs && a != b
    ensures var s1 := PlaySong(s, a);
            var s2 := PlaySong(s1, b);
            Start(a, true) in s2.pending && Start(b, true) in s2.pending - multiset{Start(a, true)} &&
            var s3 := ResolveStart(RejectStart(s2, Start(b, true)), Start(a, true));
            s3.isPlaying && s3.currentSong == Some(b) && s3.songs[a].paused
  {
    var s1 := PlaySong(s, a);
    assert s1.currentSong == Some(a) && s1.pending == s.pending + multiset{Start(a, true)};
    assert StopsCurrent(s1, b);
    var s2 := PlaySong(s1, b);
    assert s2.pending == s.pending + multiset{Start(a, true)} + multiset{Start(b, true)};
  }

  /**
   * Switching from the current song `a` to `b`: `a` is stopped and rewound to
   * 0, `b` starts, its start resolves, and when `b` ends it stays selected.
   */
  lemma SwitchAway(s: State, a: SongId, b: SongId)
    requires Inv(s) && s.currentSong == Some(a) && b in s.songs && a != b
    ensures var s2 := PlaySong(s, b);
            Start(b, true) in s2.pending &&
            var s3 := ResolveStart(s2, Start(b, true));
            var s4 := OnSongEnd(s3);
            && s2.songs[a].paused && s2.songs[a].position == 0
            && s3.currentSong == Some(b) && s3.isPlaying && !s3.songs[b].paused
            && !s4.isPlaying && s4.currentSong == Some(b)
  {
    NoEmptyTrackId();
    assert StopsCurrent(s, b);
  }

  /**
   * The switching scenario from start-up: play `a`, its start resolves, it
   * plays for 30 seconds, then the page switches to `b` as in SwitchAway.
   */
  lemma SwitchScenario(present: set<string>, a: SongId, b: SongId)
    requires a in present * TrackIds && b in present * TrackIds && a != b
    ensures var s1 := ResolveStart(PlaySong(Init(present), a), Start(a, true));
            a in s1.songs &&
            var s1' := Advance(s1, a, 30);
            var s2 := PlaySong(s1', b);
            && s1.currentSong == Some(a) && s1.isPlaying
            && s1'.songs[a].position == 30
            && s2.songs[a].paused && s2.songs[a].position == 0
            && s2.currentSong == Some(b) && !s2.songs[b].paused
  {
    var p := PlaySong(Init(present), a);
    PlaySongKeepsInv(Init(present), a);
    assert Start(a, true) in p.pending;
    var s1 := ResolveStart(p, Start(a, true));
    SwitchAway(Advance(s1, a, 30), a, b);
  }

  /** Playing the current song again resumes it where it was: after 30 seconds it stays at 30. */
  lemma ReplayResumes(present: set<string>, a: SongId)
    requires a in present * TrackIds
    ensures var s1 := PlaySong(Init(present), a);
            a in s1.songs &&
            var s2 := PlaySong(Advance(s1, a, 30), a);
            s2.currentSong == Some(a) && !s2.songs[a].paused && s2.songs[a].position == 30
  {
  }
}
