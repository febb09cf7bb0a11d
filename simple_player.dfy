/**
 * The simplified `AudioController` (js/main.js/Untitled-1.js) as an object
 * whose methods update its fields in place, including the observer callback
 * and the section click listener it installs. Each method is proved to
 * perform the transition of the same name in module SimplePlayback.
 */
module SimplePlayer {
  import opened Media
  import SimplePlayback

  class AudioController {
    var currentSong: Option<SongId>
    var isPlaying: bool
    var volume: real
    /** The non-null entries of `audioElements`, by id. */
    var songs: map<SongId, Audio>
    /** The `play()` promises that have not settled yet. */
    var pending: multiset<Start>

    function State(): SimplePlayback.State
      reads this
    {
      SimplePlayback.State(currentSong, isPlaying, volume, songs, pending)
    }

    ghost predicate Valid()
      reads this
    {
      SimplePlayback.Inv(State())
    }

    /** Registers the elements among `song1` ... `song11` that the page has, at volume 0.7. */
    constructor (present: set<string>)
      ensures Valid()
      ensures State() == SimplePlayback.Init(present)
    {
      currentSong := None;
      isPlaying := false;
      volume := DefaultVolume;
      songs := Registered(present);
      pending := multiset{};
    }

    method PlaySong(songId: SongId)
      requires Valid()
      modifies this
      ensures Valid()
      ensures State() == SimplePlayback.PlaySong(old(State()), songId)
    {
      ghost var after := SimplePlayback.PlaySong(State(), songId);
      if Truthy(currentSong) && currentSong.value in songs {
        var current := currentSong.value;
        songs := songs[current := Stopped(songs[current])];
      }
      if songId in songs {
        currentSong := Some(songId);
        songs := songs[songId := Resumed(songs[songId])];
        pending := pending + multiset{Start(songId, true)};
      }
      assert State() == after;
      SimplePlayback.PlaySongKeepsInv(old(State()), songId);
    }

    method TogglePlayPause()
      requires Valid()
      modifies this
      ensures Valid()
      ensures State() == SimplePlayback.TogglePlayPause(old(State()))
    {
      ghost var after := SimplePlayback.TogglePlayPause(State());
      if !Truthy(currentSong) {
        PlaySong(SimplePlayback.FirstSong);
        return;
      }
      var current := currentSong.value;
      if current !in songs {
        return;
      }
      if isPlaying {
        songs := songs[current := songs[current].(paused := true)];
        isPlaying := false;
      } else {
        songs := songs[current := Resumed(songs[current])];
        pending := pending + multiset{Start(current, true)};
      }
      assert State() == after;
    }

    /** Returns whether the `IndexSizeError` of an out-of-range level escaped. */
    method SetVolume(level: real) returns (thrown: bool)
      requires Valid()
      modifies this
      ensures Valid()
      ensures State() == SimplePlayback.SetVolume(old(State()), level)
      ensures thrown == SimplePlayback.VolumeThrows(old(State()), level)
    {
      volume := level;
      thrown := ApplyVolume(level);
      assert State() == SimplePlayback.SetVolume(old(State()), level);
    }

    /**
     * The `forEach` that writes `level` to every non-null element. The first
     * write of an out-of-range level throws, which ends the loop.
     */
    method ApplyVolume(level: real) returns (thrown: bool)
      modifies this`songs
      ensures thrown == (!InVolumeRange(level) && old(songs) != map[])
      ensures songs == if thrown then old(songs) else WithVolume(old(songs), level)
    {
      var remaining := songs.Keys;
      ghost var before := songs;
      while remaining != {}
        invariant remaining <= before.Keys && songs.Keys == before.Keys
        invariant !InVolumeRange(level) ==> remaining == before.Keys
        invariant forall k :: k in songs ==>
                    songs[k] == if k in remaining then before[k] else before[k].(volume := level)
        decreases remaining
      {
        var k :| k in remaining;
        if !InVolumeRange(level) {
          assert k in before && songs == before;
          return true;
        }
        songs := songs[k := songs[k].(volume := level)];
        remaining := remaining - {k};
      }
      assert !InVolumeRange(level) ==> before == map[];
      return false;
    }

    method ToggleMute()
      requires Valid()
      modifies this
      ensures Valid()
      ensures State() == SimplePlayback.ToggleMute(old(State()))
    {
      var isMuted := volume == 0.0;
      var newVolume := if isMuted then DefaultVolume else 0.0;
      var thrown := SetVolume(newVolume);
    }

    /** The host settles an outstanding `play()` promise successfully. */
    method ResolveStart(start: Start)
      requires Valid() && start in pending
      modifies this
      ensures Valid()
      ensures State() == SimplePlayback.ResolveStart(old(State()), start)
    {
      pending := pending - multiset{start};
      isPlaying := true;
    }

    /** The host rejects an outstanding `play()` promise. */
    method RejectStart(start: Start)
      requires Valid() && start in pending
      modifies this
      ensures Valid()
      ensures State() == SimplePlayback.RejectStart(old(State()), start)
    {
      pending := pending - multiset{start};
    }

    /** The observer callback for an intersecting section with attribute `data-song`. */
    method OnSectionVisible(dataSong: Option<string>)
      requires Valid()
      modifies this
      ensures Valid()
      ensures State() == SimplePlayback.OnSectionVisible(old(State()), dataSong)
    {
      if Truthy(dataSong) && dataSong != currentSong {
        PlaySong(dataSong.value);
      }
    }

    /** The click listener of a section with attribute `data-song`. */
    method OnSectionClicked(dataSong: Option<string>)
      requires Valid()
      modifies this
      ensures Valid()
      ensures State() == SimplePlayback.OnSectionClicked(old(State()), dataSong)
    {
      if Truthy(dataSong) {
        PlaySong(dataSong.value);
      }
    }
  }
}
