/**
 * The main page's `ScrollTriggers` object (Untitled-1.js): it owns the set of
 * fired trigger keys and the `visible` marks, and calls the controller it was
 * built with. Each event performs Triggers.HandleIntersection; the ghost log
 * `calls` records every `playSong` call made so far.
 */
module Scroll {
  import opened Media
  import Triggers
  import Playback
  import Player

  class ScrollTriggers {
    const audioController: Player.AudioController
    var triggeredSongs: set<string>
    var visible: set<Triggers.ElementRef>
    ghost var calls: seq<Triggers.Call>

    function Dispatcher(): Triggers.Dispatcher
      reads this
    {
      Triggers.Dispatcher(triggeredSongs, visible)
    }

    /** The keys fired are exactly those of the calls made, each once, each to its mapped track. */
    ghost predicate Valid()
      reads this, audioController
    {
      && audioController.Valid()
      && triggeredSongs == Triggers.TriggersOf(calls)
      && Triggers.DistinctTriggers(calls)
      && Triggers.MappedCalls(calls)
    }

    constructor (audioController: Player.AudioController)
      requires audioController.Valid()
      ensures Valid()
      ensures this.audioController == audioController
      ensures Dispatcher() == Triggers.Fresh && calls == []
    {
      this.audioController := audioController;
      triggeredSongs := {};
      visible := {};
      calls := [];
    }

    method HandleIntersection(element: Triggers.Element)
      requires Valid()
      modifies this, audioController
      ensures Valid()
      ensures var o := Triggers.HandleIntersection(old(Dispatcher()), element);
              && Dispatcher() == o.next
              && calls == old(calls) + (if o.call.Some? then [o.call.value] else [])
              && audioController.State() ==
                   if o.call.Some? then Playback.PlaySong(old(audioController.State()), o.call.value.song)
                   else old(audioController.State())
    {
      ghost var o := Triggers.HandleIntersection(Dispatcher(), element);
      if element.isSongSection && element.ref !in visible {
        visible := visible + {element.ref};
      }
      if element.trigger.Some? {
        var trigger := element.trigger.value;
        var songId := Triggers.Lookup(trigger);
        if Truthy(songId) && trigger !in triggeredSongs {
          triggeredSongs := triggeredSongs + {trigger};
          audioController.PlaySong(songId.value);
          Triggers.AppendCall(calls, Triggers.Call(trigger, songId.value));
          calls := calls + [Triggers.Call(trigger, songId.value)];
        }
      }
      assert Dispatcher() == o.next;
    }
  }
}
