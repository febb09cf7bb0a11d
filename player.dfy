/**
 * The main page's `AudioController` (Untitled-1.js) as an object whose
 * methods update its fields in place. Each method is proved to perform the
 * transition of the same name in module Playback, and to keep Playback.Inv.
 */
module Player {
  import opened Media
  import Playback

  class AudioController {
    var currentSong: Option<SongId>
    var isPlaying: bool
    var volume: real
    /** The registered `<audio>` elements, by id. */
    var songs: map<SongId, Audio>
    /** The `play()` promises that have not settled yet. */
    var pending: multiset<Start>

    function State(): Playback.State
      reads this
    {
      Playback.State(currentSong, isPlaying, volume, songs, pending)
    }

    ghost predicate Valid()
      reads this
    {
      Playback.Inv(State())
    }

    /** Registers the elements among `song1` ... `song11` that the page has, at volume 0.7. */
    constructor (present: set<string>)
      ensures Valid()
      ensures State() == Playback.Init(present)
    {
      currentSong := None;
      isPlaying := false;
      volume := DefaultVolume;
      songs := Registered(present);
      pending := multiset{};
    }

    method PlaySong(songId: SongId)
      requires Valid()
      modifies this
      ensures Valid()
      ensures State() == Playback.PlaySong(old(State()), songId)
    {
      ghost var before := State();
      if Truthy(currentSong) && currentSong.value != songId {
        var current := currentSong.value;
        if current in songs {
          songs := songs[current := Stopped(songs[current])];
        }
      }
      if songId !in songs {
        assert State() == Playback.PlaySong(before, songId);
        Playback.PlaySongKeepsInv(before, songId);
        return;
      }
      currentSong := Some(songId);
      songs := songs[songId := Resumed(songs[songId].(volume := volume))];
      pending := pending + multiset{Start(songId, true)};
      assert State() == Playback.PlaySong(before, songId);
      Playback.PlaySongKeepsInv(before, songId);
    }

    method TogglePlayPause()
      requires Valid()
      modifies this
      ensures Valid()
      ensures State() == Playback.TogglePlayPause(old(State()))
    {
      ghost var after := Playback.TogglePlayPause(State());
      if !Truthy(currentSong) {
        return;
      }
      var current := currentSong.value;
      if current !in songs {
        return;
      }
      if isPlaying {
        songs := songs[current := songs[current].(paused := true)];
        isPlaying := false;
      } else {
        songs := songs[current := Resumed(songs[current])];
        pending := pending + multiset{Start(current, false)};
        isPlaying := true;
      }
      assert State() == after;
    }

    /** The `forEach` that writes the stored volume to every registered element. */
    method ApplyVolume()
      modifies this`songs
      ensures songs == WithVolume(old(songs), volume)
      ensures currentSong == old(currentSong) && isPlaying == old(isPlaying)
      ensures volume == old(volume) && pending == old(pending)
    {
      var remaining := songs.Keys;
      ghost var before := songs;
      while remaining != {}
        invariant remaining <= before.Keys && songs.Keys == before.Keys
        invariant forall k :: k in songs ==>
                    songs[k] == if k in remaining then before[k] else before[k].(volume := volume)
        decreases remaining
      {
        var k :| k in remaining;
        songs := songs[k := songs[k].(volume := volume)];
        remaining := remaining - {k};
      }
    }

    method ToggleMute()
      requires Valid()
      modifies this
      ensures Valid()
      ensures State() == Playback.ToggleMute(old(State()))
    {
      var wasMuted := volume == 0.0;
      volume := if wasMuted then DefaultVolume else 0.0;
      ApplyVolume();
    }

    method SetVolume(level: real)
      requires Valid()
      modifies this
      ensures Valid()
      ensures State() == Playback.SetVolume(old(State()), level)
    {
      volume := Playback.Max(0.0, Playback.Min(1.0, level));
      ApplyVolume();
    }

    /** The `ended` listener every registered element carries. */
    method OnSongEnd()
      requires Valid()
      modifies this
      ensures Valid()
      ensures State() == Playback.OnSongEnd(old(State()))
    {
      isPlaying := false;
    }

    /** The host settles an outstanding `play()` promise successfully. */
    method ResolveStart(start: Start)
      requires Valid() && start in pending
      modifies this
      ensures Valid()
      ensures State() == Playback.ResolveStart(old(State()), start)
    {
      pending := pending - multiset{start};
      if start.marksPlaying {
        isPlaying := true;
      }
    }

    /** The host rejects an outstanding `play()` promise. */
    method RejectStart(start: Start)
      requires Valid() && start in pending
      modifies this
      ensures Valid()
      ensures State() == Playback.RejectStart(old(State()), start)
    {
      pending := pending - multiset{start};
    }
  }
}
