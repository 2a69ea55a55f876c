/**
 * The bounded event ring between the engine and its host. On overflow the
 * oldest droppable event goes first; a critical one only when nothing else is
 * left.
 */
module EventRing {
  import opened Prelude

  const CAP: nat := 64

  datatype Event = Event(tag: nat, value: nat)

  predicate Droppable(e: Event) {
    e.tag == 1 || e.tag == 2
  }

  /** The index of the first droppable event, or the length. */
  function FirstDroppable(ring: seq<Event>): (i: nat)
    ensures i <= |ring|
    ensures i < |ring| ==> Droppable(ring[i])
    ensures forall k :: 0 <= k < i ==> !Droppable(ring[k])
  {
    if ring == [] then 0 else if Droppable(ring[0]) then 0 else 1 + FirstDroppable(ring[1..])
  }

  function Pushed(ring: seq<Event>, e: Event): seq<Event> {
    if |ring| < CAP then ring + [e]
    else
      var i := FirstDroppable(ring);
      var j := if i < |ring| then i else 0;
      ring[..j] + ring[j + 1..] + [e]
  }

  /** The ring after pushing a history onto an empty one. */
  function After(history: seq<Event>): seq<Event> {
    if history == [] then [] else Pushed(After(history[..|history| - 1]), Last(history))
  }

  /** The events a host may act on exactly once, in order. */
  function Critical(events: seq<Event>): seq<Event> {
    if events == [] then []
    else Critical(events[..|events| - 1]) + if Droppable(Last(events)) then [] else [Last(events)]
  }

  lemma {:induction false} CriticalAppend(a: seq<Event>, b: seq<Event>)
    ensures Critical(a + b) == Critical(a) + Critical(b)
  {
    if b == [] {
      assert a + b == a;
    } else {
      var n := |b| - 1;
      assert (a + b)[..|a + b| - 1] == a + b[..n];
      CriticalAppend(a, b[..n]);
    }
  }

  lemma {:induction false} CriticalAll(events: seq<Event>)
    requires forall k :: 0 <= k < |events| ==> !Droppable(events[k])
    ensures Critical(events) == events
  {
    if events != [] {
      CriticalAll(events[..|events| - 1]);
    }
  }

  lemma CriticalOne(e: Event)
    ensures Critical([e]) == if Droppable(e) then [] else [e]
  {
    assert [e][..0] == [];
  }

  lemma {:induction false} CriticalShort(events: seq<Event>)
    ensures |Critical(events)| <= |events|
  {
    if events != [] {
      CriticalShort(events[..|events| - 1]);
    }
  }

  /** Pushing onto a ring that still holds something droppable, or has room, loses nothing critical. */
  lemma PushKeepsCritical(ring: seq<Event>, e: Event)
    requires |ring| <= CAP && |Critical(ring)| < CAP
    ensures Critical(Pushed(ring, e)) == Critical(ring) + Critical([e])
  {
    hide Critical;
    if |ring| < CAP {
      CriticalAppend(ring, [e]);
    } else {
      var i := FirstDroppable(ring);
      if i == |ring| {
        CriticalAll(ring);
        assert false;
      }
      assert ring == ring[..i] + [ring[i]] + ring[i + 1..];
      CriticalWithout(ring[..i], ring[i], ring[i + 1..]);
      CriticalAppend(ring[..i] + ring[i + 1..], [e]);
    }
  }

  /** Taking a droppable event out of the middle leaves the critical ones as they were. */
  lemma CriticalWithout(a: seq<Event>, x: Event, b: seq<Event>)
    requires Droppable(x)
    ensures Critical(a + [x] + b) == Critical(a + b)
  {
    hide Critical, Droppable;
    CriticalOne(x);
    CriticalAppend(a, [x]);
    CriticalAppend(a + [x], b);
    CriticalAppend(a, b);
    assert Critical(a) + [] == Critical(a);
  }

  /** A ring full of critical events loses its oldest one. */
  lemma FullRingDropsOldest(ring: seq<Event>, e: Event)
    requires |ring| == |Critical(ring)| == CAP
    ensures Critical(Pushed(ring, e)) == Critical(ring)[1..] + Critical([e])
  {
    AllCritical(ring);
    var i := FirstDroppable(ring);
    CriticalAll(ring);
    CriticalAll(ring[1..]);
    assert ring[..0] + ring[1..] == ring[1..];
    CriticalAppend(ring[1..], [e]);
    if i < |ring| {
      assert false;
    }
  }

  lemma {:induction false} AllCritical(events: seq<Event>)
    requires |Critical(events)| == |events|
    ensures forall k :: 0 <= k < |events| ==> !Droppable(events[k])
  {
    if events != [] {
      var n := |events| - 1;
      CriticalShort(events[..n]);
      AllCritical(events[..n]);
      forall k | 0 <= k < |events| ensures !Droppable(events[k]) {
        if k < n {
          assert events[..n][k] == events[k];
        }
      }
    }
  }

  lemma PushedLength(ring: seq<Event>, e: Event)
    requires |ring| <= CAP
    ensures |Pushed(ring, e)| <= CAP
  {
  }

  lemma AfterStep(history: seq<Event>)
    requires history != []
    ensures var pre, e := history[..|history| - 1], Last(history);
            After(history) == Pushed(After(pre), e) && Critical(history) == Critical(pre) + Critical([e])
  {
    CriticalOne(Last(history));
  }

  /** After any history the ring is within its bound and its critical events are the history's latest. */
  lemma {:induction false} CriticalSuffix(history: seq<Event>) returns (lost: nat)
    ensures |After(history)| <= CAP
    ensures lost <= |Critical(history)| && Critical(After(history)) == Critical(history)[lost..]
    ensures |Critical(history)| < CAP ==> lost == 0
  {
    hide Critical, Pushed, Droppable, After;
    if history == [] {
      lost := 0;
      NothingYet();
    } else {
      var pre, e := history[..|history| - 1], Last(history);
      lost := CriticalSuffix(pre);
      var ring, kept, more := After(pre), Critical(pre), Critical([e]);
      AfterStep(history);
      PushedLength(ring, e);
      CriticalShort(ring);
      if |Critical(ring)| < CAP {
        PushKeepsCritical(ring, e);
        assert kept[lost..] + more == (kept + more)[lost..];
      } else {
        FullRingDropsOldest(ring, e);
        assert kept[lost..][1..] + more == (kept + more)[lost + 1..];
        lost := lost + 1;
      }
    }
  }

  lemma NothingYet()
    ensures After([]) == [] && Critical([]) == []
  {
  }

  // ── Exactly what the ring holds ──────────────────────────────────────────

  function Droppables(events: seq<Event>): nat {
    CriticalShort(events);
    |events| - |Critical(events)|
  }

  /** The events without the first `critical` critical and the first `droppable` droppable
      ones: an event stays when enough of its kind came before it. */
  function Without(events: seq<Event>, critical: nat, droppable: nat): seq<Event> {
    if events == [] then []
    else
      var stays := if Droppable(Last(events)) then Droppables(events) > droppable else |Critical(events)| > critical;
      Without(events[..|events| - 1], critical, droppable) + if stays then [Last(events)] else []
  }

  lemma CountSnoc(events: seq<Event>, e: Event)
    ensures |Critical(events + [e])| == |Critical(events)| + if Droppable(e) then 0 else 1
    ensures Droppables(events + [e]) == Droppables(events) + if Droppable(e) then 1 else 0
  {
    assert (events + [e])[..|events|] == events;
  }

  /** What is left of each kind. */
  lemma {:induction false} WithoutCounts(events: seq<Event>, c: nat, d: nat)
    ensures |Critical(Without(events, c, d))| == Max(|Critical(events)| - c, 0)
    ensures Droppables(Without(events, c, d)) == Max(Droppables(events) - d, 0)
  {
    hide Critical, Droppable;
    if events == [] {
      NothingYet();
    } else {
      var front, e := events[..|events| - 1], Last(events);
      WithoutCounts(front, c, d);
      CountSnoc(front, e);
      CountSnoc(Without(front, c, d), e);
      assert front + [e] == events && Without(front, c, d) + [] == Without(front, c, d);
    }
  }

  /** The ring without the event a push at the bound evicts. */
  function Evicted(ring: seq<Event>): seq<Event>
    requires ring != []
  {
    var i := FirstDroppable(ring);
    var j := if i < |ring| then i else 0;
    ring[..j] + ring[j + 1..]
  }

  lemma HasDroppable(ring: seq<Event>)
    ensures FirstDroppable(ring) < |ring| <==> Droppables(ring) > 0
  {
    if Droppables(ring) == 0 {
      AllCritical(ring);
    } else if FirstDroppable(ring) == |ring| {
      CriticalAll(ring);
    }
  }

  /** An event at the end is evicted only when nothing before it can be. */
  lemma EvictedSnoc(ring: seq<Event>, e: Event)
    ensures Droppables(ring) > 0 ==> ring != [] && Evicted(ring + [e]) == Evicted(ring) + [e]
    ensures Droppables(ring) == 0 && Droppable(e) ==> Evicted(ring + [e]) == ring
    ensures Droppables(ring) == 0 && !Droppable(e) && ring != [] ==> Evicted(ring + [e]) == Evicted(ring) + [e]
  {
    hide Critical;
    HasDroppable(ring);
    HasDroppable(ring + [e]);
    CountSnoc(ring, e);
    var i, j := FirstDroppable(ring), FirstDroppable(ring + [e]);
    if i < |ring| {
      assert (ring + [e])[i] == ring[i];
      assert j == i;
    }
  }

  lemma {:induction false} WithoutAll(events: seq<Event>, c: nat, d: nat)
    requires Droppables(events) <= d
    ensures Without(events, c, d) == Without(events, c, d + 1)
  {
    hide Critical, Droppable;
    if events != [] {
      var front, e := events[..|events| - 1], Last(events);
      assert front + [e] == events;
      CountSnoc(front, e);
      WithoutAll(front, c, d);
    }
  }

  lemma EvictedOne(e: Event)
    ensures Evicted([e]) == []
  {
  }

  /** The same for a history of which only the last event is left. */
  lemma EvictedLast(front: seq<Event>, e: Event, c: nat, d: nat)
    requires Without(front, c, d) == [] && Without(front + [e], c, d) == [e]
    ensures Evicted([e])
            == if Droppables(front + [e]) > d then Without(front + [e], c, d + 1) else Without(front + [e], c + 1, d)
  {
    hide Critical, Droppable, Evicted, FirstDroppable, Droppables;
    assert (front + [e])[..|front|] == front;
    CountSnoc(front, e);
    EmptyCounts();
    EvictedOne(e);
    WithoutCounts(front, c, d);
    WithoutCounts(front, c, d + 1);
    WithoutCounts(front, c + 1, d);
    NothingLeftOf(Without(front, c, d + 1), Without(front, c + 1, d));
  }

  /** Evicting from what is left of a history loses one more of its events: the oldest
      droppable one left, or the oldest of all when none is. */
  lemma {:induction false} EvictedIsWithout(events: seq<Event>, c: nat, d: nat)
    requires Without(events, c, d) != []
    ensures Evicted(Without(events, c, d))
            == if Droppables(events) > d then Without(events, c, d + 1) else Without(events, c + 1, d)
  {
    hide Critical, Droppable, Evicted, FirstDroppable, Droppables;
    var front, e := events[..|events| - 1], Last(events);
    var ring := Without(front, c, d);
    assert front + [e] == events && ring + [] == ring;
    if ring == [] {
      assert ring + [e] == [e];
      EvictedLast(front, e, c, d);
    } else {
      CountSnoc(front, e);
      WithoutCounts(front, c, d);
      EvictedIsWithout(front, c, d);
      EvictedSnoc(ring, e);
      if Droppables(front) <= d {
        WithoutAll(front, c, d);
        SomeCritical(ring);
      }
    }
  }

  lemma EmptyCounts()
    ensures Droppables([]) == 0 && Critical([]) == []
  {
  }

  lemma NothingLeftOf(a: seq<Event>, b: seq<Event>)
    ensures |Critical(a)| == 0 && Droppables(a) == 0 ==> a == []
    ensures |Critical(b)| == 0 && Droppables(b) == 0 ==> b == []
  {
  }

  lemma SomeCritical(ring: seq<Event>)
    requires ring != [] && Droppables(ring) == 0
    ensures |Critical(ring)| > 0
  {
  }

  /** A push with room appends; a push at the bound first loses exactly one event: the
      oldest droppable one, or the oldest of all when every event is critical. */
  lemma PushLoses(ring: seq<Event>, e: Event)
    ensures |ring| < CAP ==> Pushed(ring, e) == ring + [e]
    ensures |ring| >= CAP ==>
              exists j | 0 <= j < |ring| ::
                && Pushed(ring, e) == ring[..j] + ring[j + 1..] + [e]
                && (forall k | 0 <= k < j :: !Droppable(ring[k]))
                && (Droppable(ring[j]) || (j == 0 && forall k | 0 <= k < |ring| :: !Droppable(ring[k])))
  {
    if |ring| >= CAP {
      var i := FirstDroppable(ring);
      var j := if i < |ring| then i else 0;
      assert Pushed(ring, e) == ring[..j] + ring[j + 1..] + [e];
    }
  }

  lemma PushedIsEvicted(ring: seq<Event>, e: Event)
    ensures Pushed(ring, e) == if |ring| < CAP then ring + [e] else Evicted(ring) + [e]
  {
  }

  lemma WithoutSnoc(events: seq<Event>, e: Event, c: nat, d: nat)
    requires c <= |Critical(events)| && d <= Droppables(events)
    ensures Without(events + [e], c, d) == Without(events, c, d) + [e]
  {
    hide Critical, Droppable, Droppables;
    CountSnoc(events, e);
    assert (events + [e])[..|events|] == events;
  }

  /** After any history the ring is the history without its first `c` critical and its first
      `d` droppable events, and those are no more than the bound requires. */
  lemma {:induction false} RingIsLatest(history: seq<Event>) returns (c: nat, d: nat)
    ensures After(history) == Without(history, c, d)
    ensures c <= |Critical(history)| && d <= Droppables(history)
    ensures c + d == Max(|history| - 64, 0)
  {
    hide Critical, Droppable, Pushed, Evicted, Without, Droppables;
    if history == [] {
      c, d := 0, 0;
      WithoutNothing();
    } else {
      var pre, e := history[..|history| - 1], Last(history);
      c, d := RingIsLatest(pre);
      var ring := After(pre);
      assert history == pre + [e];
      CountSnoc(pre, e);
      WithoutCounts(pre, c, d);
      LengthIsCounts(ring);
      LengthIsCounts(pre);
      PushedIsEvicted(ring, e);
      if |ring| >= CAP {
        EvictedIsWithout(pre, c, d);
        if Droppables(pre) > d {
          d := d + 1;
        } else {
          c := c + 1;
        }
      }
      WithoutSnoc(pre, e, c, d);
    }
  }

  lemma WithoutNothing()
    ensures Without([], 0, 0) == []
  {
  }

  lemma LengthIsCounts(events: seq<Event>)
    ensures |events| == |Critical(events)| + Droppables(events)
  {
  }

  /** The ring itself, edited in place. */
  class Ring {
    var events: seq<Event>

    constructor ()
      ensures events == After([])
    {
      events := [];
    }

    method Push(e: Event)
      modifies this
      ensures events == Pushed(old(events), e)
    {
      if |events| >= CAP {
        var i := 0;
        while i < |events| && !Droppable(events[i])
          invariant 0 <= i <= |events| && forall k :: 0 <= k < i ==> !Droppable(events[k])
        {
          i := i + 1;
        }
        var j := if i < |events| then i else 0;
        events := events[..j] + events[j + 1..];
      }
      events := events + [e];
    }
  }
}
