/**
 * When the bounded map of download-failure runs drops a run, and that a
 * download stuck at a block is reported for its whole span until then. The
 * map evicts the least recently failed run, so a run is safe while fewer than
 * eight other blocks are failing as recently.
 */
module FailureReports {
  import opened Prelude
  import opened DownloadFailures

  /** The blocks the history gave up at. */
  ghost function Blocks(events: seq<Event>): (r: set<nat>)
    ensures forall k :: 0 <= k < |events| && events[k].GaveUp? ==> events[k].at in r
  {
    if events == [] then {}
    else
      var e := Last(events);
      Blocks(events[..|events| - 1]) + if e.GaveUp? then {e.at} else {}
  }

  /** Event l is the block's latest give-up and nothing has ended its run since. */
  ghost predicate Standing(events: seq<Event>, at: nat, l: nat) {
    && l < |events| && GaveUpAt(events[l], at)
    && (forall k :: l < k < |events| ==> !GaveUpAt(events[k], at))
    && (forall k :: l < k < |events| ==> !Ends(events, k, at))
  }

  ghost predicate FailingSince(events: seq<Event>, o: nat, t: nat) {
    exists l: nat :: Standing(events, o, l) && events[l].now >= t
  }

  /** The other blocks still failing whose latest give-up came at t or later. */
  ghost function Rivals(events: seq<Event>, at: nat, t: nat): set<nat> {
    set o | o in Blocks(events) && o != at && FailingSince(events, o, t)
  }

  /** Event j is the block's latest give-up before event k. */
  ghost predicate Latest(events: seq<Event>, at: nat, j: nat, k: nat) {
    j < k <= |events| && GaveUpAt(events[j], at) && forall m :: j < m < k ==> !GaveUpAt(events[m], at)
  }

  lemma AfterStep(pre: seq<Event>, e: Event)
    ensures After(pre + [e]) == Apply(After(pre), e)
  {
    assert (pre + [e])[..|pre|] == pre;
  }

  /** A run on the board stands in the history, with its clock. */
  lemma RunStands(events: seq<Event>, o: nat) returns (l: nat)
    requires o in After(events).runs
    ensures Standing(events, o, l) && events[l].now == After(events).runs[o].last
  {
    hide After, Ends, Count;
    var i;
    i, l := RunHasWitness(events, o);
  }

  lemma LatestIsLast(events: seq<Event>, at: nat, j: nat)
    requires at in After(events).runs && Latest(events, at, j, |events|)
    ensures After(events).runs[at].last == events[j].now
  {
    hide After, Ends;
    var l := RunStands(events, at);
    assert l == j;
  }

  lemma BoardRival(events: seq<Event>, at: nat, o: nat, t: nat)
    requires o in After(events).runs && o != at && After(events).runs[o].last >= t
    ensures o in Rivals(events, at, t)
  {
    hide After, Ends, Blocks;
    var l := RunStands(events, o);
    assert Standing(events, o, l) && events[l].now >= t;
  }

  // ── Kept while fewer than eight others fail as recently ──────────────────

  /** Where a give-up elsewhere drops the run, eight others failed no earlier. */
  lemma EvictedIsCrowded(b: Board, o: nat, now: nat, at: nat)
    requires |b.runs| <= MAX_RUNS && at in b.runs && o != at && b.runs[at].last <= now
    requires at !in Apply(b, GaveUp(o, now)).runs
    ensures var left := Apply(b, GaveUp(o, now)).runs;
            |left| == MAX_RUNS && forall q :: q in left ==> q != at && left[q].last >= b.runs[at].last
  {
    var put := b.runs[o := Recorded(b.runs, o, now)];
    var left := Apply(b, GaveUp(o, now)).runs;
    assert put.Keys == b.runs.Keys + {o};
    var g :| LeastRecent(put, o, g) && left == put - {g};
    assert g == at;
    assert left.Keys == put.Keys - {g};
    forall q | q in left ensures q != at && left[q].last >= b.runs[at].last {
      if q != o {
        assert q in put;
      }
    }
  }

  lemma KeptUncrowded(pre: seq<Event>, e: Event, at: nat, j: nat)
    requires ClockOk(pre + [e]) && e.GaveUp? && e.at != at
    requires at in After(pre).runs && Latest(pre, at, j, |pre|)
    requires |Rivals(pre + [e], at, pre[j].now)| < MAX_RUNS
    ensures at in After(pre + [e]).runs
  {
    hide After, Ends, Rivals;
    var events := pre + [e];
    AfterStep(pre, e);
    LatestIsLast(pre, at, j);
    ClockPrefix(pre, e);
    BoardOk(pre);
    assert events[j] == pre[j] && events[|pre|] == e;
    if at !in After(events).runs {
      EvictedIsCrowded(After(pre), e.at, e.now, at);
      forall q | q in After(events).runs ensures q in Rivals(events, at, pre[j].now) {
        BoardRival(events, at, q, pre[j].now);
      }
      KeysShrink(After(events).runs.Keys, Rivals(events, at, pre[j].now));
    }
  }

  lemma ClockPrefix(pre: seq<Event>, e: Event)
    requires ClockOk(pre + [e])
    ensures ClockOk(pre)
  {
    var events := pre + [e];
    forall i, j | 0 <= i < j < |pre| && pre[i].GaveUp? && pre[j].GaveUp? ensures pre[i].now <= pre[j].now {
      assert events[i] == pre[i] && events[j] == pre[j];
    }
  }

  // ── Dropped once eight others fail more recently ─────────────────────────

  /** A run is not dropped while an older one is there. */
  lemma OlderGoesFirst(b: Board, e: Event, at: nat, o: nat)
    requires e.GaveUp? && o != e.at && e.at != at && o != at && o in b.runs && at in b.runs
    requires b.runs[at].last < b.runs[o].last
    requires at in Apply(b, e).runs
    ensures o in Apply(b, e).runs
  {
    var put := b.runs[e.at := Recorded(b.runs, e.at, e.now)];
    assert at in put && put[at] == b.runs[at] && put[o] == b.runs[o];
  }

  lemma StandingPrefix(pre: seq<Event>, e: Event, o: nat, l: nat)
    requires Standing(pre + [e], o, l) && l < |pre|
    ensures Standing(pre, o, l) && !GaveUpAt(e, o) && !Ends(pre + [e], |pre|, o)
  {
    var events := pre + [e];
    forall k | l < k < |pre| ensures !GaveUpAt(pre[k], o) && !Ends(pre, k, o) {
      assert events[k] == pre[k];
      EndsPrefix(pre, e, k, o);
    }
    assert events[|pre|] == e;
  }

  /** An event that neither ends a run nor gives up anywhere keeps it. */
  lemma NotEndedKept(pre: seq<Event>, e: Event, o: nat)
    requires o in After(pre).runs && !e.GaveUp? && !Ends(pre + [e], |pre|, o)
    ensures o in After(pre + [e]).runs && After(pre + [e]).runs[o] == After(pre).runs[o]
  {
    hide After;
    AfterStep(pre, e);
    BlamedHere(pre, e);
    FlagIsBlame(pre);
  }

  /** While a run is on the board, so is every standing one that failed after it. */
  lemma {:induction false} NewerIsOnBoard(events: seq<Event>, at: nat, o: nat, l: nat)
    requires ClockOk(events) && at in After(events).runs && o != at && Standing(events, o, l)
    requires After(events).runs[at].last < events[l].now
    ensures o in After(events).runs
    decreases |events|
  {
    hide After, Ends, ClockOk, Standing;
    StandingEvent(events, o, l);
    var n := |events| - 1;
    var pre, e := events[..n], events[n];
    assert events == pre + [e];
    AfterStep(pre, e);
    if l == n {
      RecordedStays(After(pre).runs, o, e.now);
    } else {
      ClockPrefix(pre, e);
      StandingPrefix(pre, e, o, l);
      GaveUpBefore(events, at, l);
      KeptRun(After(pre), e, at);
      NewerIsOnBoard(pre, at, o, l);
      if e.GaveUp? {
        var x := RunStands(pre, o);
        SameStanding(pre, o, l, x);
        OlderGoesFirst(After(pre), e, at, o);
      } else {
        NotEndedKept(pre, e, o);
      }
    }
  }

  lemma StandingEvent(events: seq<Event>, o: nat, l: nat)
    requires Standing(events, o, l)
    ensures l < |events| && GaveUpAt(events[l], o)
  {
  }

  lemma SameStanding(events: seq<Event>, o: nat, l: nat, x: nat)
    requires Standing(events, o, l) && Standing(events, o, x)
    ensures l == x
  {
    hide Ends;
  }

  /** A block that failed before event l cannot be the one that failed last. */
  lemma GaveUpBefore(events: seq<Event>, at: nat, l: nat)
    requires ClockOk(events) && at in After(events).runs && l < |events| - 1 && events[l].GaveUp?
    requires After(events).runs[at].last < events[l].now
    ensures !GaveUpAt(Last(events), at)
  {
    hide After, Ends;
    var x := RunStands(events, at);
  }

  /** Eight others that failed later leave no room for the run. */
  lemma CrowdedOut(events: seq<Event>, at: nat, j: nat)
    requires ClockOk(events) && Latest(events, at, j, |events|)
    requires |Rivals(events, at, events[j].now + 1)| >= MAX_RUNS
    ensures at !in After(events).runs
  {
    hide After, Ends, Blocks;
    var rivals := Rivals(events, at, events[j].now + 1);
    if at in After(events).runs {
      LatestIsLast(events, at, j);
      forall o | o in rivals ensures o in After(events).runs {
        var l: nat :| Standing(events, o, l) && events[l].now >= events[j].now + 1;
        NewerIsOnBoard(events, at, o, l);
      }
      KeysShrink(rivals + {at}, After(events).runs.Keys);
      BoardOk(events);
    }
  }

  /**
   * Least-recent eviction, read off the history: a give-up elsewhere leaves the run in
   * place while fewer than eight other blocks are failing since its clock or later, and
   * has dropped it once eight are failing since after it. When no other block failed in
   * that very second the two agree, and the condition is exact.
   */
  lemma EvictionIff(pre: seq<Event>, e: Event, at: nat, j: nat)
    requires ClockOk(pre + [e]) && e.GaveUp? && e.at != at
    requires at in After(pre).runs && Latest(pre, at, j, |pre|)
    ensures |Rivals(pre + [e], at, pre[j].now)| < MAX_RUNS ==> at in After(pre + [e]).runs
    ensures |Rivals(pre + [e], at, pre[j].now + 1)| >= MAX_RUNS ==> at !in After(pre + [e]).runs
    ensures Rivals(pre + [e], at, pre[j].now) == Rivals(pre + [e], at, pre[j].now + 1) ==>
              (at in After(pre + [e]).runs <==> |Rivals(pre + [e], at, pre[j].now)| < MAX_RUNS)
  {
    hide After, Rivals, ClockOk;
    var events := pre + [e];
    assert events[j] == pre[j] && Latest(events, at, j, |events|);
    if |Rivals(events, at, pre[j].now)| < MAX_RUNS {
      KeptUncrowded(pre, e, at, j);
    }
    if |Rivals(events, at, pre[j].now + 1)| >= MAX_RUNS {
      CrowdedOut(events, at, j);
    }
  }

  // ── A stuck download is reported ─────────────────────────────────────────

  /** Each give-up at the block after i came within the gap of an earlier one from i on. */
  ghost predicate Unbroken(events: seq<Event>, at: nat, i: nat) {
    forall k :: i < k < |events| && GaveUpAt(events[k], at) ==>
      exists m :: i <= m < k && GaveUpAt(events[m], at) && Elapsed(events[k].now, events[m].now) <= RUN_GAP_SECS
  }

  /** At each give-up elsewhere after i, fewer than eight other blocks were failing as
      recently as the block itself. */
  ghost predicate Uncrowded(events: seq<Event>, at: nat, i: nat) {
    forall j: nat, k: nat
    | i <= j && k < |events| && Latest(events, at, j, k) && events[k].GaveUp? && events[k].at != at ::
      |Rivals(events[..k + 1], at, events[j].now)| < MAX_RUNS
  }

  /** The run from i on is on the board in full. */
  ghost predicate Tracked(b: Board, events: seq<Event>, at: nat, i: nat)
    requires i < |events| && events[i].GaveUp?
  {
    && at in b.runs
    && b.runs[at].since <= events[i].now
    && (forall k :: i <= k < |events| && GaveUpAt(events[k], at) ==> events[k].now <= b.runs[at].last)
    && ((exists k :: i < k < |events| && GaveUpAt(events[k], at)) ==> b.runs[at].streak >= STALL_STREAK)
  }

  lemma TrackedStarts(pre: seq<Event>, e: Event, at: nat)
    requires ClockOk(pre + [e]) && GaveUpAt(e, at)
    ensures Tracked(After(pre + [e]), pre + [e], at, |pre|)
  {
    hide After, Ends;
    var events, runs := pre + [e], After(pre).runs;
    AfterStep(pre, e);
    RecordedStays(runs, at, e.now);
    ClockPrefix(pre, e);
    BoardOk(pre);
    if at in runs {
      assert events[..|pre|] == pre && Last(events) == e;
      ClockAhead(events, at);
    }
  }

  /** A give-up at the tracked block continues its run. */
  lemma TrackedGrows(pre: seq<Event>, e: Event, at: nat, i: nat)
    requires i < |pre| && GaveUpAt(pre[i], at) && GaveUpAt(e, at)
    requires ClockOk(pre + [e]) && Unbroken(pre + [e], at, i) && Tracked(After(pre), pre, at, i)
    ensures Tracked(After(pre + [e]), pre + [e], at, i)
  {
    hide After, Ends;
    var events, runs := pre + [e], After(pre).runs;
    AfterStep(pre, e);
    RecordedStays(runs, at, e.now);
    ClockPrefix(pre, e);
    BoardOk(pre);
    assert events[|pre|] == e;
    var m :| i <= m < |pre| && GaveUpAt(events[m], at) && Elapsed(e.now, events[m].now) <= RUN_GAP_SECS;
    assert pre[m].now <= runs[at].last;
    assert Recorded(runs, at, e.now).since == runs[at].since;
    forall k | i <= k < |events| && GaveUpAt(events[k], at) ensures events[k].now <= e.now {}
  }

  lemma LatestFrom(events: seq<Event>, at: nat, i: nat, l: nat)
    requires i < |events| && GaveUpAt(events[i], at) && Standing(events, at, l)
    ensures i <= l && Latest(events, at, l, |events|)
  {
  }

  /** Any other event that does not end the run leaves it where it is. */
  lemma TrackedStays(pre: seq<Event>, e: Event, at: nat, i: nat)
    requires i < |pre| && GaveUpAt(pre[i], at) && !GaveUpAt(e, at)
    requires ClockOk(pre + [e]) && !Ends(pre + [e], |pre|, at) && Uncrowded(pre + [e], at, i)
    requires at in After(pre).runs
    ensures at in After(pre + [e]).runs && After(pre + [e]).runs[at] == After(pre).runs[at]
  {
    hide After, Ends, Rivals, ClockOk;
    var events := pre + [e];
    if e.GaveUp? {
      var l := RunStands(pre, at);
      LatestFrom(pre, at, i, l);
      assert events[l] == pre[l] && events[|pre|] == e && events[..|pre| + 1] == events;
      assert Latest(events, at, l, |pre|);
      KeptUncrowded(pre, e, at, l);
      AfterStep(pre, e);
      KeptRun(After(pre), e, at);
    } else {
      NotEndedKept(pre, e, at);
    }
  }

  lemma TrackedOn(pre: seq<Event>, e: Event, at: nat, i: nat)
    requires i < |pre| && GaveUpAt(pre[i], at) && !GaveUpAt(e, at) && Tracked(After(pre), pre, at, i)
    requires at in After(pre + [e]).runs && After(pre + [e]).runs[at] == After(pre).runs[at]
    ensures Tracked(After(pre + [e]), pre + [e], at, i)
  {
    hide After;
    var events := pre + [e];
    forall k | i <= k < |events| && GaveUpAt(events[k], at) ensures k < |pre| && GaveUpAt(pre[k], at) {}
  }

  lemma {:induction false} RunIsTracked(events: seq<Event>, at: nat, i: nat)
    requires ClockOk(events) && Uncrowded(events, at, i)
    requires i < |events| && GaveUpAt(events[i], at) && Unbroken(events, at, i)
    requires forall k :: i < k < |events| ==> !Ends(events, k, at)
    ensures Tracked(After(events), events, at, i)
    decreases |events|
  {
    hide After, Tracked, Ends, Unbroken, ClockOk, Uncrowded;
    var n := |events| - 1;
    var pre, e := events[..n], events[n];
    assert events == pre + [e];
    if i == n {
      TrackedStarts(pre, e, at);
    } else {
      ClockPrefix(pre, e);
      forall k | i < k < n ensures !Ends(pre, k, at) {
        EndsPrefix(pre, e, k, at);
      }
      UnbrokenPrefix(pre, e, at, i);
      UncrowdedPrefix(pre, e, at, i);
      RunIsTracked(pre, at, i);
      if GaveUpAt(e, at) {
        TrackedGrows(pre, e, at, i);
      } else {
        TrackedIsThere(After(pre), pre, at, i);
        TrackedStays(pre, e, at, i);
        TrackedOn(pre, e, at, i);
      }
    }
  }

  lemma TrackedIsThere(b: Board, events: seq<Event>, at: nat, i: nat)
    requires i < |events| && events[i].GaveUp? && Tracked(b, events, at, i)
    ensures at in b.runs
  {
  }

  lemma UncrowdedPrefix(pre: seq<Event>, e: Event, at: nat, i: nat)
    requires Uncrowded(pre + [e], at, i)
    ensures Uncrowded(pre, at, i)
  {
    hide Rivals;
    var events := pre + [e];
    forall j: nat, k: nat | i <= j && k < |pre| && Latest(pre, at, j, k) && pre[k].GaveUp? && pre[k].at != at
      ensures |Rivals(pre[..k + 1], at, pre[j].now)| < MAX_RUNS
    {
      assert events[j] == pre[j] && events[k] == pre[k] && events[..k + 1] == pre[..k + 1];
      assert Latest(events, at, j, k);
    }
  }

  lemma UnbrokenPrefix(pre: seq<Event>, e: Event, at: nat, i: nat)
    requires Unbroken(pre + [e], at, i)
    ensures Unbroken(pre, at, i)
  {
    var events := pre + [e];
    forall k | i < k < |pre| && GaveUpAt(pre[k], at)
      ensures exists m :: i <= m < k && GaveUpAt(pre[m], at) && Elapsed(pre[k].now, pre[m].now) <= RUN_GAP_SECS
    {
      assert events[k] == pre[k];
      var m :| i <= m < k && GaveUpAt(events[m], at) && Elapsed(events[k].now, events[m].now) <= RUN_GAP_SECS;
      assert GaveUpAt(pre[m], at);
    }
  }

  /**
   * A download stuck at one block is reported for at least its whole span, whatever else
   * has failed over the life of the record, as long as at no give-up elsewhere eight other
   * blocks were failing as recently.
   */
  lemma FailureIsReported(events: seq<Event>, at: nat, i: nat, j: nat, now: nat, secs: nat)
    requires ClockOk(events) && Uncrowded(events, at, i)
    requires StuckAt(events, at, i, j) && Unbroken(events, at, i)
    requires Elapsed(now, events[j].now) <= RUN_GAP_SECS
    requires IsFailureSecs(After(events).runs, now, secs)
    ensures secs >= Elapsed(now, events[i].now)
  {
    hide After, Ends, Uncrowded, Unbroken;
    RunIsTracked(events, at, i);
    assert Live(After(events).runs, at, now);
  }
}
