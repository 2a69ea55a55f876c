/**
 * Runs of block-download give-ups: one per block, kept in a bounded map, and
 * read back as the seconds a download has kept failing. The theorems tie what
 * is reported to the history of events that led there.
 */
module DownloadFailures {
  import opened Prelude

  const STALL_STREAK: nat := 2
  const RUN_GAP_SECS: nat := 600
  const MAX_RUNS: nat := 8
  const STREAK_LIMIT: nat := 0xFFFF_FFFF

  datatype Run = Run(streak: nat, at: nat, since: nat, last: nat)

  /** The runs, and whether the download gave up during the current attempt. */
  datatype Board = Board(runs: map<nat, Run>, gaveUp: bool)

  datatype Event =
    | GaveUp(at: nat, now: nat)
    | Released(first: nat, last: nat)
    | PassCompleted
    | SessionBegan
    | AttemptFailed

  function Elapsed(now: nat, since: nat): nat {
    if now <= since then 0 else now - since
  }

  /** The run at a block after a give-up there: continued within the gap, else started over. */
  function Recorded(runs: map<nat, Run>, at: nat, now: nat): (r: Run)
    ensures r.at == at || (at in runs && r.at == runs[at].at)
    ensures r.last == now
  {
    if at in runs && Elapsed(now, runs[at].last) <= RUN_GAP_SECS
    then runs[at].(streak := Min(runs[at].streak + 1, STREAK_LIMIT), last := now)
    else Run(1, at, now, now)
  }

  /** k failed least recently among the runs other than keep; on a tie, the lowest block. */
  predicate LeastRecent(runs: map<nat, Run>, keep: nat, k: nat) {
    && k in runs && k != keep
    && forall o :: o in runs && o != keep ==>
         runs[k].last < runs[o].last || (runs[k].last == runs[o].last && k <= o)
  }

  lemma LeastRecentExists(runs: map<nat, Run>, keep: nat) returns (k: nat)
    requires exists o :: o in runs && o != keep
    ensures LeastRecent(runs, keep, k)
    decreases |runs|
  {
    k :| k in runs && k != keep;
    var rest := runs - {k};
    if exists o :: o in rest && o != keep {
      var m := LeastRecentExists(rest, keep);
      assert forall o :: o in runs ==> o == k || o in rest;
      if runs[m].last < runs[k].last || (runs[m].last == runs[k].last && m <= k) {
        k := m;
      }
    } else {
      assert forall o :: o in runs && o != keep ==> o == k || o in rest;
    }
  }

  /** The map after a run is put in: over the bound, the least recent other run goes. */
  ghost function Bounded(runs: map<nat, Run>, keep: nat): (r: map<nat, Run>)
    ensures r == runs || exists k :: LeastRecent(runs, keep, k) && r == runs - {k}
  {
    if |runs| > MAX_RUNS && exists k :: LeastRecent(runs, keep, k)
    then var k :| LeastRecent(runs, keep, k); runs - {k}
    else runs
  }

  ghost function Apply(b: Board, e: Event): Board {
    match e
    case GaveUp(at, now) => Board(Bounded(b.runs[at := Recorded(b.runs, at, now)], at), true)
    case Released(first, last) => b.(runs := map k | k in b.runs && !(first <= k <= last) :: b.runs[k])
    case PassCompleted => Board(map[], false)
    case SessionBegan => Board(map[], false)
    case AttemptFailed => if b.gaveUp then b.(gaveUp := false) else Board(map[], false)
  }

  ghost function After(events: seq<Event>): Board {
    if events == [] then Board(map[], false) else Apply(After(events[..|events| - 1]), Last(events))
  }

  /** Give-ups carry a clock that never runs backwards. */
  ghost predicate ClockOk(events: seq<Event>) {
    forall i, j :: 0 <= i < j < |events| && events[i].GaveUp? && events[j].GaveUp? ==> events[i].now <= events[j].now
  }

  predicate Boundary(e: Event) {
    e.PassCompleted? || e.SessionBegan? || e.AttemptFailed?
  }

  /** The download gave up in the attempt that was going on before event k. */
  ghost predicate Blamed(events: seq<Event>, k: nat)
    requires k <= |events|
  {
    exists m :: 0 <= m < k && events[m].GaveUp? && forall n :: m < n < k ==> !Boundary(events[n])
  }

  /** Event k shows that the download got past the block, or stops blaming it. */
  ghost predicate Ends(events: seq<Event>, k: nat, at: nat)
    requires k < |events|
  {
    match events[k]
    case GaveUp(_, _) => false
    case Released(first, last) => first <= at <= last
    case PassCompleted => true
    case SessionBegan => true
    case AttemptFailed => !Blamed(events, k)
  }

  predicate GaveUpAt(e: Event, at: nat) {
    e.GaveUp? && e.at == at
  }

  /** How many events are give-ups at the block. */
  ghost function Count(events: seq<Event>, at: nat): (r: nat)
  {
    if events == [] then 0
    else Count(events[..|events| - 1], at) + if GaveUpAt(Last(events), at) then 1 else 0
  }

  /** Run r is what the give-ups from event i on make of its block: i opened it, j was its latest. */
  ghost predicate Witness(events: seq<Event>, r: Run, i: nat, j: nat) {
    && i <= j < |events|
    && events[i] == GaveUp(r.at, r.since) && events[j] == GaveUp(r.at, r.last)
    && r.streak == Min(Count(events[i..], r.at), STREAK_LIMIT)
    && (forall k :: j < k < |events| ==> !GaveUpAt(events[k], r.at))
    && (forall k :: i < k < |events| ==> !Ends(events, k, r.at))
  }

  lemma EndsPrefix(events: seq<Event>, e: Event, k: nat, at: nat)
    requires k < |events|
    ensures Ends(events + [e], k, at) == Ends(events, k, at)
  {
    var longer := events + [e];
    forall n | 0 <= n < |events| ensures longer[n] == events[n] {}
    if events[k].AttemptFailed? {
      assert Blamed(longer, k) == Blamed(events, k);
    }
  }

  lemma CountSnoc(events: seq<Event>, e: Event, at: nat, i: nat)
    requires i <= |events|
    ensures Count((events + [e])[i..], at) == Count(events[i..], at) + if GaveUpAt(e, at) then 1 else 0
  {
    var tail := (events + [e])[i..];
    assert tail[..|tail| - 1] == events[i..] && Last(tail) == e;
  }

  /** An event that neither ends the run nor gives up at its block leaves the witness alone. */
  lemma WitnessStays(events: seq<Event>, e: Event, r: Run, i: nat, j: nat)
    requires Witness(events, r, i, j)
    requires !GaveUpAt(e, r.at) && !Ends(events + [e], |events|, r.at)
    ensures Witness(events + [e], r, i, j)
  {
    hide Ends, Count;
    CountSnoc(events, e, r.at, i);
    forall k | i < k < |events| + 1 ensures !Ends(events + [e], k, r.at) {
      if k < |events| {
        EndsPrefix(events, e, k, r.at);
      }
    }
  }

  /** A give-up at the block extends its witness. */
  lemma WitnessGrows(events: seq<Event>, r: Run, i: nat, j: nat, now: nat)
    requires Witness(events, r, i, j)
    ensures var grown := r.(streak := Min(r.streak + 1, STREAK_LIMIT), last := now);
            Witness(events + [GaveUp(r.at, now)], grown, i, |events|)
  {
    hide Count;
    var e := GaveUp(r.at, now);
    CountSnoc(events, e, r.at, i);
    forall k | i < k < |events| + 1 ensures !Ends(events + [e], k, r.at) {
      if k < |events| {
        EndsPrefix(events, e, k, r.at);
      }
    }
  }

  lemma WitnessStarts(events: seq<Event>, at: nat, now: nat)
    ensures Witness(events + [GaveUp(at, now)], Run(1, at, now, now), |events|, |events|)
  {
    CountSnoc(events, GaveUp(at, now), at, |events|);
    assert events[|events|..] == [];
  }

  /** The attempt flag is exactly whether the download gave up in this attempt. */
  lemma {:induction false} FlagIsBlame(events: seq<Event>)
    ensures After(events).gaveUp <==> Blamed(events, |events|)
  {
    if events != [] {
      var n := |events| - 1;
      FlagIsBlame(events[..n]);
      BlamedStep(events);
    }
  }

  lemma BlamedStep(events: seq<Event>)
    requires events != []
    ensures Blamed(events, |events|) <==>
              Last(events).GaveUp? || (!Boundary(Last(events)) && Blamed(events[..|events| - 1], |events| - 1))
  {
    var n := |events| - 1;
    if Last(events).GaveUp? {
      assert events[n].GaveUp?;
    } else if !Boundary(Last(events)) && Blamed(events[..n], n) {
      var m :| 0 <= m < n && events[..n][m].GaveUp? && forall k :: m < k < n ==> !Boundary(events[..n][k]);
      assert events[m].GaveUp? && forall k :: m < k < |events| ==> !Boundary(events[k]) by {
        forall k | m < k < |events| ensures !Boundary(events[k]) {
          if k < n {
            assert events[..n][k] == events[k];
          }
        }
      }
    } else {
      forall k | 0 <= k < n ensures events[..n][k] == events[k] {}
    }
  }

  lemma BlamedHere(events: seq<Event>, e: Event)
    ensures Blamed(events + [e], |events|) <==> Blamed(events, |events|)
  {
    forall n | 0 <= n < |events| ensures (events + [e])[n] == events[n] {}
  }

  /** Every run on the board is explained by the history. */
  lemma {:induction false} RunHasWitness(events: seq<Event>, k: nat) returns (i: nat, j: nat)
    requires k in After(events).runs
    ensures After(events).runs[k].at == k
    ensures Witness(events, After(events).runs[k], i, j)
  {
    hide Witness, Ends, Blamed, Count;
    var n := |events| - 1;
    var pre, e := events[..n], Last(events);
    assert events == pre + [e];
    var b := After(pre);
    if GaveUpAt(e, k) {
      RecordedStays(b.runs, k, e.now);
      if k in b.runs && Elapsed(e.now, b.runs[k].last) <= RUN_GAP_SECS {
        i, j := RunHasWitness(pre, k);
        WitnessGrows(pre, b.runs[k], i, j, e.now);
        j := n;
      } else {
        WitnessStarts(pre, k, e.now);
        i, j := n, n;
      }
    } else {
      KeptRun(b, e, k);
      i, j := RunHasWitness(pre, k);
      FlagIsBlame(pre);
      NotEnded(pre, e, k);
      WitnessStays(pre, e, b.runs[k], i, j);
    }
  }

  /** The run just recorded is never the one that goes. */
  lemma RecordedStays(runs: map<nat, Run>, at: nat, now: nat)
    ensures var r := Bounded(runs[at := Recorded(runs, at, now)], at);
            at in r && r[at] == Recorded(runs, at, now)
  {
  }

  /** An event elsewhere leaves the runs it does not drop as they were. */
  lemma KeptRun(b: Board, e: Event, k: nat)
    requires k in Apply(b, e).runs && !GaveUpAt(e, k)
    ensures k in b.runs && Apply(b, e).runs[k] == b.runs[k]
    ensures e.Released? ==> !(e.first <= k <= e.last)
    ensures !e.PassCompleted? && !e.SessionBegan?
    ensures e.AttemptFailed? ==> b.gaveUp
  {
  }

  lemma NotEnded(pre: seq<Event>, e: Event, k: nat)
    requires e.Released? ==> !(e.first <= k <= e.last)
    requires !e.PassCompleted? && !e.SessionBegan?
    requires e.AttemptFailed? ==> Blamed(pre, |pre|)
    ensures !Ends(pre + [e], |pre|, k)
  {
    BlamedHere(pre, e);
  }

  /** What the bounded map keeps of every run, whatever the history. */
  ghost predicate RunOk(r: Run) {
    && 1 <= r.streak <= STREAK_LIMIT
    && r.since <= r.last
    && (r.streak < STREAK_LIMIT ==> r.last <= r.since + RUN_GAP_SECS * (r.streak - 1))
  }

  /** Every reachable board: at most eight runs, each filed under its own block and in bounds. */
  lemma {:induction false} BoardOk(events: seq<Event>)
    requires ClockOk(events)
    ensures |After(events).runs| <= MAX_RUNS == 8
    ensures forall k :: k in After(events).runs ==> After(events).runs[k].at == k && RunOk(After(events).runs[k])
  {
    if events != [] {
      var n := |events| - 1;
      var pre, e := events[..n], Last(events);
      BoardOk(pre);
      SizeKept(After(pre), e);
      forall k | k in After(events).runs
        ensures After(events).runs[k].at == k && RunOk(After(events).runs[k])
      {
        if GaveUpAt(e, k) {
          RecordedStays(After(pre).runs, k, e.now);
          if k in After(pre).runs {
            ClockAhead(events, k);
          }
        } else {
          KeptRun(After(pre), e, k);
        }
      }
    }
  }

  /** A new give-up is no older than the latest one on its run. */
  lemma ClockAhead(events: seq<Event>, k: nat)
    requires ClockOk(events) && events != [] && Last(events).GaveUp?
    requires k in After(events[..|events| - 1]).runs
    ensures After(events[..|events| - 1]).runs[k].last <= Last(events).now
  {
    hide After, Ends, Count;
    var n := |events| - 1;
    var i, j := RunHasWitness(events[..n], k);
    assert events[j] == events[..n][j];
  }

  lemma SizeKept(b: Board, e: Event)
    requires |b.runs| <= MAX_RUNS
    ensures |Apply(b, e).runs| <= MAX_RUNS
  {
    match e
    case GaveUp(at, now) =>
      var put := b.runs[at := Recorded(b.runs, at, now)];
      assert put.Keys == b.runs.Keys + {at};
      if |put| > MAX_RUNS {
        AnotherRun(put, at);
        var k := LeastRecentExists(put, at);
        var left := Bounded(put, at);
        var g :| LeastRecent(put, at, g) && left == put - {g};
        assert left.Keys == put.Keys - {g};
      }
    case Released(first, last) =>
      KeysShrink(Apply(b, e).runs.Keys, b.runs.Keys);
    case PassCompleted =>
    case SessionBegan =>
    case AttemptFailed =>
  }

  lemma AnotherRun(runs: map<nat, Run>, at: nat)
    requires |runs| > 1
    ensures exists o :: o in runs && o != at
  {
    if forall o :: o in runs ==> o == at {
      KeysShrink(runs.Keys, {at});
    }
  }

  lemma {:induction false} KeysShrink(a: set<nat>, b: set<nat>)
    requires a <= b
    ensures |a| <= |b|
  {
    if a != {} {
      var x :| x in a;
      KeysShrink(a - {x}, b - {x});
    }
  }

  /** The run counts towards the stall: enough give-ups, the latest one recent. */
  predicate Live(runs: map<nat, Run>, k: nat, now: nat) {
    k in runs && runs[k].streak >= STALL_STREAK && Elapsed(now, runs[k].last) <= RUN_GAP_SECS
  }

  /** secs is the longest time since a live run's first give-up, or 0 without one. */
  ghost predicate IsFailureSecs(runs: map<nat, Run>, now: nat, secs: nat) {
    && (forall k :: Live(runs, k, now) ==> Elapsed(now, runs[k].since) <= secs)
    && (secs > 0 ==> exists k :: Live(runs, k, now) && secs == Elapsed(now, runs[k].since))
  }

  /** Two give-ups at one block, i before j, with nothing ending the run since i. */
  ghost predicate StuckAt(events: seq<Event>, at: nat, i: nat, j: nat) {
    && i < j < |events|
    && GaveUpAt(events[i], at) && GaveUpAt(events[j], at)
    && forall k :: i < k < |events| ==> !Ends(events, k, at)
  }

  lemma CountOne(events: seq<Event>, i: nat, at: nat)
    requires i < |events| && GaveUpAt(events[i], at)
    requires forall k :: i < k < |events| ==> !GaveUpAt(events[k], at)
    ensures Count(events[i..], at) == 1
    decreases |events|
  {
    var n := |events| - 1;
    assert events == events[..n] + [events[n]];
    CountSnoc(events[..n], events[n], at, i);
    if i < n {
      CountOne(events[..n], i, at);
    } else {
      assert events[..n][i..] == [];
    }
  }

  /** A reported failure time is real: it counts from a give-up that the block never got past. */
  lemma FailureIsReal(events: seq<Event>, now: nat, secs: nat) returns (at: nat, i: nat, j: nat)
    requires IsFailureSecs(After(events).runs, now, secs) && secs > 0
    ensures StuckAt(events, at, i, j)
    ensures secs == now - events[i].now && Elapsed(now, events[j].now) <= RUN_GAP_SECS
  {
    hide After, Count, Ends;
    var runs := After(events).runs;
    at :| Live(runs, at, now) && secs == Elapsed(now, runs[at].since);
    i, j := RunHasWitness(events, at);
    if i == j {
      CountOne(events, i, at);
    }
  }

  /** The live record: its methods do what the events of the model do. */
  class FailureRuns {
    var runs: map<nat, Run>
    var gaveUpThisAttempt: bool

    ghost function View(): Board
      reads this
    {
      Board(runs, gaveUpThisAttempt)
    }

    constructor ()
      ensures View() == After([])
    {
      runs, gaveUpThisAttempt := map[], false;
    }

    method NoteGaveUp(at: nat, now: nat)
      modifies this
      ensures View() == Apply(old(View()), GaveUp(at, now))
      ensures at in runs && runs[at].last == now
    {
      RecordedStays(runs, at, now);
      var run := Recorded(runs, at, now);
      runs := runs[at := run];
      if |runs| > MAX_RUNS {
        AnotherRun(runs, at);
        var k := FindLeastRecent(runs, at);
        LeastRecentUnique(runs, at, k);
        runs := runs - {k};
      }
      gaveUpThisAttempt := true;
    }

    method NotePassCompleted()
      modifies this
      ensures View() == Apply(old(View()), PassCompleted)
    {
      gaveUpThisAttempt := false;
      runs := map[];
    }

    method BeginSession()
      modifies this
      ensures View() == Apply(old(View()), SessionBegan)
    {
      gaveUpThisAttempt := false;
      runs := map[];
    }

    method NoteAttemptFailed()
      modifies this
      ensures View() == Apply(old(View()), AttemptFailed)
    {
      var gaveUp := gaveUpThisAttempt;
      gaveUpThisAttempt := false;
      if !gaveUp {
        runs := map[];
      }
    }

    method NoteBlocksReleased(first: nat, last: nat)
      modifies this
      ensures View() == Apply(old(View()), Released(first, last))
    {
      if first > last {
        assert runs == map k | k in runs && !(first <= k <= last) :: runs[k];
        return;
      }
      var covered := set k | k in runs && first <= k <= last;
      runs := runs - covered;
    }

    method DownloadFailureSecs(now: nat) returns (secs: nat)
      ensures IsFailureSecs(runs, now, secs)
    {
      secs := 0;
      var todo := runs.Keys;
      while todo != {}
        invariant todo <= runs.Keys
        invariant IsFailureSecs(map k | k in runs && k !in todo :: runs[k], now, secs)
        decreases |todo|
      {
        ghost var before := map k | k in runs && k !in todo :: runs[k];
        var k :| k in todo;
        todo := todo - {k};
        ghost var seen := map k | k in runs && k !in todo :: runs[k];
        assert seen == before[k := runs[k]];
        ghost var was := secs;
        if Live(runs, k, now) && Elapsed(now, runs[k].since) > secs {
          secs := Elapsed(now, runs[k].since);
          assert Live(seen, k, now);
        }
        SecsStep(before, seen, k, now, was, secs);
      }
      assert runs == map k | k in runs && k !in todo :: runs[k];
    }
  }

  lemma SecsStep(before: map<nat, Run>, seen: map<nat, Run>, k: nat, now: nat, was: nat, secs: nat)
    requires IsFailureSecs(before, now, was) && k !in before && k in seen && seen == before[k := seen[k]]
    requires secs == if Live(seen, k, now) && Elapsed(now, seen[k].since) > was
                     then Elapsed(now, seen[k].since) else was
    ensures IsFailureSecs(seen, now, secs)
  {
    forall o | o != k ensures Live(seen, o, now) == Live(before, o, now) {}
    if secs > 0 && secs == was {
      var o :| Live(before, o, now) && secs == Elapsed(now, before[o].since);
      assert Live(seen, o, now);
    }
  }

  lemma LeastRecentUnique(runs: map<nat, Run>, keep: nat, k: nat)
    requires LeastRecent(runs, keep, k) && |runs| > MAX_RUNS
    ensures Bounded(runs, keep) == runs - {k}
  {
  }

  /** The first of the least recently failed runs other than keep. */
  method FindLeastRecent(runs: map<nat, Run>, keep: nat) returns (k: nat)
    requires exists o :: o in runs && o != keep
    ensures LeastRecent(runs, keep, k)
  {
    k :| k in runs && k != keep;
    var todo := runs.Keys - {keep, k};
    while todo != {}
      invariant todo <= runs.Keys - {keep, k}
      invariant k in runs && k != keep
      invariant forall o :: o in runs && o != keep && o !in todo ==>
                  runs[k].last < runs[o].last || (runs[k].last == runs[o].last && k <= o)
      decreases |todo|
    {
      var o :| o in todo;
      todo := todo - {o};
      if runs[o].last < runs[k].last || (runs[o].last == runs[k].last && o < k) {
        k := o;
      }
    }
  }
}
