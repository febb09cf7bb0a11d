/**
 * The scroll-trigger dispatcher of the main page (`ScrollTriggers` in
 * Untitled-1.js) as pure functions: one visibility event at a time, and a
 * whole sequence of them, with the `playSong` calls it makes.
 */
module Triggers {
  import opened Media

  /** The static table from a panel's `data-trigger` value to a track id. */
  const SongMap: map<string, SongId> := map[
    "song1-start" := "song1",
    "song2-awakening" := "song2",
    "song3-liberation" := "song3",
    "song4-sekmet" := "song4",
    "song5-twinflame" := "song5",
    "song6-healing" := "song6",
    "song7-innerwise" := "song7",
    "song8-meditation" := "song8",
    "song9-treeoflife" := "song9",
    "song10-amazing" := "song10",
    "song11-ultimate" := "song11"
  ]

  /** The identity of a DOM element. */
  type ElementRef = nat

  /**
   * An observed element: whether it has the class `song-section`, and its
   * `data-trigger` attribute if it has one.
   */
  datatype Element = Element(ref: ElementRef, isSongSection: bool, trigger: Option<string>)

  /** The trigger keys fired so far, and the sections marked `visible`. */
  datatype Dispatcher = Dispatcher(triggered: set<string>, visible: set<ElementRef>)

  /** One `playSong` call made by the dispatcher, with the key that caused it. */
  datatype Call = Call(trigger: string, song: SongId)

  datatype Outcome = Outcome(next: Dispatcher, call: Option<Call>)

  const Fresh: Dispatcher := Dispatcher({}, {})

  /** `songMap[trigger]`: the track an intersecting panel asks for, if any. */
  function Lookup(trigger: string): (r: Option<SongId>)
    ensures r.Some? <==> trigger in SongMap
    ensures r.Some? ==> r.value == SongMap[trigger] && r.value in TrackIds && Truthy(r)
  {
    if trigger in SongMap then Some(SongMap[trigger]) else None
  }

  /**
   * `handleIntersection(element)`: a song section is marked visible (once); a
   * panel whose key is mapped and not yet fired is recorded and plays its track.
   */
  function HandleIntersection(d: Dispatcher, e: Element): (r: Outcome)
    ensures r.next.visible == d.visible + (if e.isSongSection then {e.ref} else {})
    ensures r.call.Some? <==>
              e.trigger.Some? && e.trigger.value in SongMap && e.trigger.value !in d.triggered
    ensures r.call.Some? ==>
              && r.call.value == Call(e.trigger.value, SongMap[e.trigger.value])
              && r.next.triggered == d.triggered + {e.trigger.value}
    ensures r.call.None? ==> r.next.triggered == d.triggered
  {
    var visible := if e.isSongSection && e.ref !in d.visible then d.visible + {e.ref} else d.visible;
    if e.trigger.None? then
      Outcome(d.(visible := visible), None)
    else
      var trigger := e.trigger.value;
      var songId := Lookup(trigger);
      if Truthy(songId) && trigger !in d.triggered then
        Outcome(Dispatcher(d.triggered + {trigger}, visible), Some(Call(trigger, songId.value)))
      else
        Outcome(d.(visible := visible), None)
  }

  function TriggersOf(calls: seq<Call>): (keys: set<string>) {
    set c | c in calls :: c.trigger
  }

  /** No two calls come from the same key. */
  ghost predicate DistinctTriggers(calls: seq<Call>) {
    forall i, j :: 0 <= i < j < |calls| ==> calls[i].trigger != calls[j].trigger
  }

  /** Every call plays the track its key is mapped to. */
  ghost predicate MappedCalls(calls: seq<Call>) {
    forall c :: c in calls ==> c.trigger in SongMap && c.song == SongMap[c.trigger]
  }

  /** Recording one more call from a key not fired before keeps the log well-formed. */
  lemma AppendCall(calls: seq<Call>, c: Call)
    requires DistinctTriggers(calls) && MappedCalls(calls)
    requires c.trigger !in TriggersOf(calls) && c.trigger in SongMap && c.song == SongMap[c.trigger]
    ensures DistinctTriggers(calls + [c]) && MappedCalls(calls + [c])
    ensures TriggersOf(calls + [c]) == TriggersOf(calls) + {c.trigger}
  {
    var grown := calls + [c];
    forall i, j | 0 <= i < j < |grown| ensures grown[i].trigger != grown[j].trigger {
      if j == |calls| {
        assert grown[i] == calls[i];
        assert calls[i] in calls;
      } else {
        assert grown[i] == calls[i] && grown[j] == calls[j];
      }
    }
  }

  datatype Trace = Trace(final: Dispatcher, calls: seq<Call>)

  /** The song sections among the elements `es`. */
  function SectionsIn(es: seq<Element>): (refs: set<ElementRef>) {
    set e | e in es && e.isSongSection :: e.ref
  }

  /** The keys among `es` that are mapped and were not fired before `d`. */
  function FireableIn(d: Dispatcher, es: seq<Element>): (keys: set<string>) {
    set e | e in es && e.trigger.Some? && e.trigger.value in SongMap && e.trigger.value !in d.triggered
          :: e.trigger.value
  }

  lemma TriggersOfAppend(a: seq<Call>, b: seq<Call>)
    ensures TriggersOf(a + b) == TriggersOf(a) + TriggersOf(b)
  {
    assert forall c :: c in a + b <==> c in a || c in b;
  }

  /** Splitting off the first element of `es` from the sets above. */
  lemma SplitFirst(d: Dispatcher, es: seq<Element>)
    requires es != []
    ensures SectionsIn(es) == (if es[0].isSongSection then {es[0].ref} else {}) + SectionsIn(es[1..])
    ensures var o := HandleIntersection(d, es[0]);
            FireableIn(d, es) == (if o.call.Some? then {o.call.value.trigger} else {}) + FireableIn(o.next, es[1..])
  {
    assert forall e :: e in es <==> e == es[0] || e in es[1..];
  }

  /**
   * Feeding the elements of `es` one after another: the keys only grow, each
   * key fires at most once, and only mapped, not yet fired keys fire.
   */
  function Dispatch(d: Dispatcher, es: seq<Element>): (r: Trace)
    ensures d.triggered <= r.final.triggered && d.visible <= r.final.visible
    ensures r.final.triggered == d.triggered + TriggersOf(r.calls)
    ensures MappedCalls(r.calls) && DistinctTriggers(r.calls)
    ensures forall c :: c in r.calls ==> c.trigger !in d.triggered
    decreases |es|
  {
    if es == [] then Trace(d, [])
    else
      var o := HandleIntersection(d, es[0]);
      var rest := Dispatch(o.next, es[1..]);
      var first := if o.call.Some? then [o.call.value] else [];
      assert forall c :: c in first ==> c.trigger in o.next.triggered;
      Trace(rest.final, first + rest.calls)
  }

  /**
   * What a sequence of events must do: every song section seen ends up marked,
   * and the keys fired are exactly the mapped keys seen that had not fired before.
   */
  lemma {:induction false} DispatchCovers(d: Dispatcher, es: seq<Element>)
    ensures Dispatch(d, es).final.visible == d.visible + SectionsIn(es)
    ensures TriggersOf(Dispatch(d, es).calls) == FireableIn(d, es)
    decreases |es|
  {
    if es != [] {
      var o := HandleIntersection(d, es[0]);
      var first := if o.call.Some? then [o.call.value] else [];
      var rest := Dispatch(o.next, es[1..]);
      assert Dispatch(d, es) == Trace(rest.final, first + rest.calls);
      DispatchCovers(o.next, es[1..]);
      TriggersOfAppend(first, rest.calls);
      SplitFirst(d, es);
    }
  }

  /** How many calls of `calls` come from `key`. */
  function CountFor(calls: seq<Call>, key: string): (n: nat) {
    if calls == [] then 0
    else (if calls[0].trigger == key then 1 else 0) + CountFor(calls[1..], key)
  }

  lemma {:induction false} CountAbsent(calls: seq<Call>, key: string)
    requires key !in TriggersOf(calls)
    ensures CountFor(calls, key) == 0
  {
    if calls != [] {
      assert calls[0] in calls;
      assert forall c :: c in calls[1..] ==> c in calls;
      CountAbsent(calls[1..], key);
    }
  }

  lemma {:induction false} CountDistinct(calls: seq<Call>, key: string)
    requires DistinctTriggers(calls)
    ensures CountFor(calls, key) <= 1
  {
    if calls != [] {
      var rest := calls[1..];
      assert DistinctTriggers(rest) by {
        forall i, j | 0 <= i < j < |rest| ensures rest[i].trigger != rest[j].trigger {
          assert rest[i] == calls[i + 1] && rest[j] == calls[j + 1];
        }
      }
      if calls[0].trigger == key {
        forall c | c in rest ensures c.trigger != key {
          var j :| 0 <= j < |rest| && rest[j] == c;
          assert calls[j + 1] == c;
        }
        CountAbsent(rest, key);
      } else {
        CountDistinct(rest, key);
      }
    }
  }

  /** Over the dispatcher's life, each key makes at most one `playSong` call. */
  lemma AtMostOncePerKey(es: seq<Element>, key: string)
    ensures CountFor(Dispatch(Fresh, es).calls, key) <= 1
  {
    CountDistinct(Dispatch(Fresh, es).calls, key);
  }

  lemma {:induction false} CountPresent(calls: seq<Call>, key: string)
    requires key in TriggersOf(calls)
    ensures CountFor(calls, key) >= 1
  {
    if calls[0].trigger != key {
      assert forall c :: c in calls && c != calls[0] ==> c in calls[1..];
      CountPresent(calls[1..], key);
    }
  }

  /** Over the dispatcher's life, each mapped key that is seen makes exactly one `playSong` call. */
  lemma MappedKeyFiresOnce(es: seq<Element>, i: nat)
    requires i < |es| && es[i].trigger.Some? && es[i].trigger.value in SongMap
    ensures CountFor(Dispatch(Fresh, es).calls, es[i].trigger.value) == 1
  {
    var calls := Dispatch(Fresh, es).calls;
    var key := es[i].trigger.value;
    DispatchCovers(Fresh, es);
    assert es[i] in es;
    assert key in FireableIn(Fresh, es);
    CountPresent(calls, key);
    CountDistinct(calls, key);
  }

  /** Every song section seen is marked visible. */
  lemma SectionsMarked(d: Dispatcher, es: seq<Element>, i: nat)
    requires i < |es| && es[i].isSongSection
    ensures es[i].ref in Dispatch(d, es).final.visible
  {
    DispatchCovers(d, es);
    assert es[i] in es;
  }

  /** A key missing from the table never makes a call. */
  lemma AbsentKeyNeverPlays(d: Dispatcher, es: seq<Element>, key: string)
    requires key !in SongMap
    ensures CountFor(Dispatch(d, es).calls, key) == 0
  {
    var calls := Dispatch(d, es).calls;
    assert key !in TriggersOf(calls);
    CountAbsent(calls, key);
  }

  /** The same panel becoming visible three times plays its track once. */
  lemma SeenThreeTimes(e: Element)
    requires e.trigger.Some? && e.trigger.value in SongMap
    ensures Dispatch(Fresh, [e, e, e]).calls == [Call(e.trigger.value, SongMap[e.trigger.value])]
  {
    var o := HandleIntersection(Fresh, e);
    var o2 := HandleIntersection(o.next, e);
    var o3 := HandleIntersection(o2.next, e);
    assert [e, e, e][1..] == [e, e];
    assert [e, e][1..] == [e];
    assert [e][1..] == [];
    assert Dispatch(o2.next, [e]).calls == [];
    assert Dispatch(o.next, [e, e]).calls == [];
  }
}
