/**
 * Suggest rounds, counter bumps and host polls interleaved. A round stores the
 * baseline, the total, the pass start and the floor one after the other; a
 * poll reads all fields at one moment and folds what it read at a later one.
 */
module ProgressRounds {
  import opened Prelude
  import opened ProgressPermille

  /** How far the scheduler is in its bookkeeping of a round. */
  datatype Pc =
    | Outside
    | Based(sum: nat, birthday: Option<nat>)
    | Totalled(sum: nat, birthday: Option<nat>)
    | Expanding(seed: nat, sum: nat)
    | ExpandBased(seed: nat, sum: nat)
    | ExpandTotalled(seed: nat)
    | ExpandStarted(seed: nat)
    | Keeping(seed: nat)
    | KeepStarted(seed: nat)

  datatype State = State(
    m: Meter,
    tip: nat,
    soFar: nat,          // blocks of completed ranges credited to this pass
    pc: Pc,
    pending: seq<nat>)   // what polls have read and not folded yet

  datatype Step =
    | BeginPass
    | Fetch(blocks: nat)
    | Scan(blocks: nat)
    | Credit(blocks: nat)
    | SetTip(height: nat)
    | SeedFloor(seed: nat)
    | Round(sum: nat, birthday: Option<nat>)
    | Advance
    | PollRead(done: bool)
    | PollFold(i: nat)

  const INITIAL: State := State(Meter(0, None, 0, 0, 0, 0, 0), 0, 0, Outside, [])

  predicate Enabled(s: State, a: Step) {
    match a
    case Advance => !s.pc.Outside?
    case SetTip(_) => true
    // A fetch that outlived its range may still be counting blocks inside a round.
    case Fetch(_) => true
    case Scan(_) => true
    case PollRead(done) => done ==> s.pc.Outside?
    case PollFold(i) => i < |s.pending|
    case _ => s.pc.Outside?
  }

  /** The scheduler's next store of a round. */
  function Advanced(s: State): State {
    match s.pc
    case Outside => s
    case Based(sum, birthday) =>
      s.(m := s.m.(total := s.soFar + sum), pc := Totalled(sum, birthday))
    case Totalled(sum, birthday) =>
      (match GlobalSeed(s.tip, birthday, sum)
       case None => s.(pc := Outside)
       case Some(seed) => s.(pc := if ScopeExpanded(s.m.floor, seed) then Expanding(seed, sum) else Keeping(seed)))
    case Expanding(seed, sum) =>
      s.(soFar := 0, m := s.m.(baseFetched := s.m.fetched, baseScanned := s.m.scanned), pc := ExpandBased(seed, sum))
    case ExpandBased(seed, sum) =>
      s.(m := s.m.(total := sum), pc := ExpandTotalled(seed))
    case ExpandTotalled(seed) =>
      s.(m := s.m.(start := Some(Min(seed, 1000))), pc := ExpandStarted(seed))
    case ExpandStarted(seed) =>
      s.(m := if ScopeExpanded(s.m.floor, seed) then s.m.(floor := Min(seed, 1000)) else s.m, pc := Outside)
    case Keeping(seed) =>
      s.(m := if s.m.start.None? then s.m.(start := Some(Min(seed, 1000))) else s.m, pc := KeepStarted(seed))
    case KeepStarted(seed) =>
      s.(m := s.m.(floor := Folded(s.m.floor, seed)), pc := Outside)
  }

  function Apply(s: State, a: Step): State
    requires Enabled(s, a)
  {
    match a
    case BeginPass => s.(m := Meter(s.m.floor, None, 0, 0, 0, 0, 0), soFar := 0)
    case Fetch(n) => s.(m := s.m.(fetched := s.m.fetched + n))
    case Scan(n) => s.(m := s.m.(scanned := s.m.scanned + n))
    case Credit(n) => s.(soFar := s.soFar + n)
    case SetTip(h) => s.(tip := h)
    case SeedFloor(seed) => s.(m := s.m.(floor := Folded(s.m.floor, seed)))
    case Round(sum, birthday) =>
      s.(m := s.m.(baseFetched := SatSub(s.m.fetched, s.soFar), baseScanned := SatSub(s.m.scanned, s.soFar)),
         pc := Based(sum, birthday))
    case Advance => Advanced(s)
    case PollRead(done) => s.(pending := s.pending + [if done then 1000 else RawPermille(s.m)])
    case PollFold(i) =>
      s.(m := s.m.(floor := Folded(s.m.floor, s.pending[i])), pending := s.pending[..i] + s.pending[i + 1..])
  }

  function Run(steps: seq<Step>): Option<State> {
    if steps == [] then Some(INITIAL)
    else
      var before := Run(steps[..|steps| - 1]);
      if before.Some? && Enabled(before.value, Last(steps)) then Some(Apply(before.value, Last(steps))) else None
  }

  /** A round is re-baselining: it has seen that the scope expanded. */
  predicate Rebaselining(pc: Pc) {
    pc.Expanding? || pc.ExpandBased? || pc.ExpandTotalled? || pc.ExpandStarted?
  }

  /** The start never stands above the floor, except while a round is still raising it. */
  ghost predicate StartOk(m: Meter, pc: Pc) {
    m.start.Some? ==>
      m.start.value <= 1000 &&
      (m.start.value <= m.floor || (pc.KeepStarted? && m.start.value <= Min(pc.seed, 1000)))
  }

  /** No block has been counted since the baseline was stored. */
  predicate AtBaseline(m: Meter) {
    m.baseFetched == m.fetched && m.baseScanned == m.scanned
  }

  /** While re-baselining the seed stays far below the floor, and the start follows it. */
  ghost predicate RebaseOk(m: Meter, pc: Pc) {
    && (Rebaselining(pc) ==> pc.seed + EPSILON < m.floor)
    && (pc.ExpandStarted? ==> m.start == Some(pc.seed))
  }

  ghost predicate Inv(s: State) {
    && s.m.floor <= 1000 && StartOk(s.m, s.pc) && RebaseOk(s.m, s.pc)
    && forall i :: 0 <= i < |s.pending| ==> s.pending[i] <= 1000
  }

  lemma StepKeeps(s: State, a: Step)
    requires Inv(s) && Enabled(s, a)
    ensures Inv(Apply(s, a))
  {
    hide RawPermille, GlobalSeed;
    if a.PollRead? {
      BlendMonotone(s.m, s.m.fetched, s.m.scanned);
    }
    if a.Advance? && s.pc.Totalled? {
      SeedIsPosition(s.tip, s.pc.birthday, s.pc.sum);
    }
  }

  lemma {:induction false} RunKeeps(steps: seq<Step>)
    requires Run(steps).Some?
    ensures Inv(Run(steps).value)
  {
    hide Apply, Inv;
    if steps == [] {
      InitialOk();
    } else {
      RunKeeps(steps[..|steps| - 1]);
      StepKeeps(Run(steps[..|steps| - 1]).value, Last(steps));
    }
  }

  lemma InitialOk()
    ensures Inv(INITIAL)
  {
  }

  /** The one step that lowers the floor: the last store of a re-baselining round. */
  predicate Lowers(s: State, a: Step) {
    a.Advance? && s.pc.ExpandStarted?
  }

  /** Every other step keeps or raises the floor; the lowering one sets it to the seed, far below. */
  lemma FloorStep(s: State, a: Step)
    requires Inv(s) && Enabled(s, a)
    ensures !Lowers(s, a) ==> Apply(s, a).m.floor >= s.m.floor
    ensures Lowers(s, a) ==>
              && Apply(s, a).m.floor == s.pc.seed < s.m.floor - EPSILON
              && Apply(s, a).m.start == Some(s.pc.seed) && s.pc.seed <= RawPermille(Apply(s, a).m)
              && (AtBaseline(s.m) ==> RawPermille(Apply(s, a).m) == s.pc.seed)
  {
    hide RawPermille, GlobalSeed;
    if Lowers(s, a) {
      var m := Apply(s, a).m;
      BlendMonotone(m, m.fetched, m.scanned);
      if AtBaseline(s.m) {
        BlendAtBaseline(m);
      }
    }
  }

  /** The floor, hence every reported value, stays in range and climbs between re-baselines. */
  lemma {:induction false} NeverRegresses(steps: seq<Step>, k: nat)
    requires k <= |steps| && Run(steps).Some? && Run(steps[..k]).Some?
    requires forall i :: k <= i < |steps| && Run(steps[..i]).Some? ==> !Lowers(Run(steps[..i]).value, steps[i])
    ensures Run(steps[..k]).value.m.floor <= Run(steps).value.m.floor <= 1000
    decreases |steps|
  {
    hide Apply, Lowers;
    RunKeeps(steps);
    if k == |steps| {
      assert steps[..k] == steps;
    } else {
      var n := |steps| - 1;
      var pre := steps[..n];
      assert pre[..k] == steps[..k];
      forall i | k <= i < n && Run(pre[..i]).Some? ensures !Lowers(Run(pre[..i]).value, pre[i]) {
        assert pre[..i] == steps[..i];
      }
      RunKeeps(pre);
      NeverRegresses(pre, k);
      FloorStep(Run(pre).value, steps[n]);
    }
  }

  /** The blocks fetched, or scanned, since the pass began. */
  function CountedSince(steps: seq<Step>, fetched: bool): nat {
    if steps == [] then 0
    else
      var before := CountedSince(steps[..|steps| - 1], fetched);
      match Last(steps)
      case BeginPass => 0
      case Fetch(n) => if fetched then before + n else before
      case Scan(n) => if fetched then before else before + n
      case _ => before
  }

  /** In every reachable state the counters are the pass's own, and a pass that has counted
      nothing and seen no round reads 0. */
  lemma {:induction false} CountersCount(steps: seq<Step>)
    requires Run(steps).Some?
    ensures var m := Run(steps).value.m;
            && m.fetched == CountedSince(steps, true) && m.scanned == CountedSince(steps, false)
            && (steps != [] && Last(steps).BeginPass? ==>
                  RawPermille(m) == 0 && m.start.None? && Run(steps).value.soFar == 0)
  {
    hide RawPermille, GlobalSeed;
    if steps != [] {
      CountersCount(steps[..|steps| - 1]);
      if Last(steps).BeginPass? {
        BlendAtBaseline(Run(steps).value.m);
      }
    }
  }

  /** A poll that reads while a rebased round is still storing sees nothing above the floor,
      as long as no block has been counted since the new baseline. */
  lemma RebaselineWindow(steps: seq<Step>)
    requires Run(steps).Some?
    requires var pc := Run(steps).value.pc; pc.ExpandBased? || pc.ExpandTotalled? || pc.ExpandStarted?
    requires AtBaseline(Run(steps).value.m)
    ensures RawPermille(Run(steps).value.m) <= Run(steps).value.m.floor
  {
    hide Run, RawPermille;
    RunKeeps(steps);
    BlendAtBaseline(Run(steps).value.m);
  }

  predicate IsPoll(a: Step) {
    (a.PollRead? && !a.done) || a.PollFold?
  }

  /** Nothing above the seed is on its way into the floor. */
  ghost predicate Settled(s: State, seed: nat) {
    && s.m.floor == seed && RawPermille(s.m) == seed
    && forall i :: 0 <= i < |s.pending| ==> s.pending[i] <= seed
  }

  lemma SettledStep(s: State, a: Step, seed: nat)
    requires Settled(s, seed) && seed <= 1000 && IsPoll(a) && Enabled(s, a)
    ensures Settled(Apply(s, a), seed)
  {
    hide RawPermille, GlobalSeed;
    if a.PollFold? {
      assert Apply(s, a).m == s.m;
    }
  }

  /**
   * After a re-baseline every poll reads the seed, until the counters move,
   * if they have not moved since the baseline was stored and no poll that read
   * before the lowering still has a higher value to fold.
   */
  lemma {:induction false} RebaselineSticks(steps: seq<Step>, k: nat)
    requires k < |steps| && Run(steps).Some? && Run(steps[..k]).Some?
    requires Lowers(Run(steps[..k]).value, steps[k]) && AtBaseline(Run(steps[..k]).value.m)
    requires forall i :: 0 <= i < |Run(steps[..k]).value.pending| ==>
               Run(steps[..k]).value.pending[i] <= Run(steps[..k]).value.pc.seed
    requires forall i :: k < i < |steps| ==> IsPoll(steps[i])
    ensures Settled(Run(steps).value, Run(steps[..k]).value.pc.seed)
    decreases |steps|
  {
    hide Apply, Settled, IsPoll;
    var n := |steps| - 1;
    var pre := steps[..n];
    var seed := Run(steps[..k]).value.pc.seed;
    RunKeeps(steps[..k]);
    if k == n {
      LoweredIsSettled(Run(pre).value, steps[n]);
    } else {
      assert pre[..k] == steps[..k];
      RebaselineSticks(pre, k);
      SeedBelowFloor(Run(steps[..k]).value);
      SettledStep(Run(pre).value, steps[n], seed);
    }
  }

  lemma SeedBelowFloor(s: State)
    requires Inv(s) && s.pc.ExpandStarted?
    ensures s.pc.seed <= 1000
  {
  }

  lemma LoweredIsSettled(s: State, a: Step)
    requires Inv(s) && Enabled(s, a) && Lowers(s, a) && AtBaseline(s.m)
    requires forall i :: 0 <= i < |s.pending| ==> s.pending[i] <= s.pc.seed
    ensures Settled(Apply(s, a), s.pc.seed)
  {
    hide RawPermille, GlobalSeed;
    FloorStep(s, a);
  }

  /** A poll that read before the lowering undoes it exactly when it read above the seed. */
  lemma StaleFold(s: State, a: Step, i: nat)
    requires Inv(s) && Enabled(s, a) && Lowers(s, a) && i < |s.pending|
    ensures var after := Apply(Apply(s, a), PollFold(i));
            after.m.floor == s.pc.seed <==> s.pending[i] <= s.pc.seed
  {
    hide RawPermille, GlobalSeed;
    FloorStep(s, a);
  }

  lemma RunSnoc(pre: seq<Step>, a: Step)
    requires Run(pre).Some? && Enabled(Run(pre).value, a)
    ensures Run(pre + [a]) == Some(Apply(Run(pre).value, a))
  {
    assert (pre + [a])[..|pre|] == pre;
  }

  /** A round over a ten-block span that finds all of it unscanned, up to its new total … */
  const REBASING: seq<Step> := [SetTip(10), Round(10, Some(1)), Advance, Advance, Advance, Advance]

  /** … and up to its new start. */
  const REBASELINE: seq<Step> := REBASING + [Advance]

  lemma RebasingRuns(pre: seq<Step>)
    requires Run(pre).Some? && Run(pre).value.pc.Outside? && Run(pre).value.m.floor > EPSILON
    ensures var before, s := Run(pre).value, Run(pre + REBASING);
            && s.Some? && s.value.pc == ExpandTotalled(0)
            && s.value.m == before.m.(baseFetched := before.m.fetched, baseScanned := before.m.scanned, total := 10)
            && s.value.pending == before.pending
  {
    hide RawPermille, Run;
    var s0 := Run(pre).value;
    var s1 := Apply(s0, SetTip(10));
    var s2 := Apply(s1, Round(10, Some(1)));
    var s3 := Advanced(s2);
    var s4 := Advanced(s3);
    assert s4.pc == Expanding(0, 10);
    RunSnoc(pre, SetTip(10));
    RunSnoc(pre + [SetTip(10)], Round(10, Some(1)));
    var p := pre + [SetTip(10)] + [Round(10, Some(1))];
    RunSnoc(p, Advance);
    RunSnoc(p + [Advance], Advance);
    RunSnoc(p + [Advance] + [Advance], Advance);
    RunSnoc(p + [Advance] + [Advance] + [Advance], Advance);
    assert p + [Advance] + [Advance] + [Advance] + [Advance] == pre + REBASING;
  }

  lemma RebaselineRuns(pre: seq<Step>)
    requires Run(pre).Some? && Run(pre).value.pc.Outside? && Run(pre).value.m.floor == 1000
    ensures var s := Run(pre + REBASELINE);
            && s.Some? && s.value.pc == ExpandStarted(0)
            && s.value.m.floor == 1000 && s.value.pending == Run(pre).value.pending
  {
    hide RawPermille, Run;
    RebasingRuns(pre);
    RunSnoc(pre + REBASING, Advance);
    assert pre + REBASING + [Advance] == pre + REBASELINE;
  }

  /** A block counted inside the window can be read above the floor: ten of ten fetched and
      scanned while the round has yet to store its start. */
  lemma WindowBumpExceeds()
    ensures var s := Run([SeedFloor(100)] + REBASING + [Fetch(10)] + [Scan(10)]);
            s.Some? && s.value.pc == ExpandTotalled(0) && s.value.m.floor == 100 < RawPermille(s.value.m) == 1000
  {
    hide Run, GlobalSeed;
    FloorSeeded(100);
    RebasingRuns([SeedFloor(100)]);
    RunSnoc([SeedFloor(100)] + REBASING, Fetch(10));
    RunSnoc([SeedFloor(100)] + REBASING + [Fetch(10)], Scan(10));
  }

  lemma FloorSeeded(seed: nat)
    requires seed <= 1000
    ensures Run([SeedFloor(seed)]) == Some(INITIAL.(m := INITIAL.m.(floor := seed)))
  {
    RunSnoc([], SeedFloor(seed));
    assert [] + [SeedFloor(seed)] == [SeedFloor(seed)];
  }

  lemma DonePollPending()
    ensures var s := Run([SeedFloor(1000), PollRead(true)]);
            s.Some? && s.value.pc.Outside? && s.value.m.floor == 1000 && s.value.pending == [1000]
  {
    hide RawPermille, GlobalSeed;
    FloorSeeded(1000);
    RunSnoc([SeedFloor(1000)], PollRead(true));
    assert [SeedFloor(1000)] + [PollRead(true)] == [SeedFloor(1000), PollRead(true)];
  }

  /** A run in which a poll that read a finished pass folds after the re-baseline and masks it. */
  lemma StaleFoldMasks()
    ensures var pre := [SeedFloor(1000), PollRead(true)];
            var low, masked := Run(pre + REBASELINE + [Advance]), Run(pre + REBASELINE + [Advance] + [PollFold(0)]);
            low.Some? && low.value.m.floor == 0 && masked.Some? && masked.value.m.floor == 1000
  {
    hide RawPermille, GlobalSeed, Run;
    var pre := [SeedFloor(1000), PollRead(true)];
    DonePollPending();
    RebaselineRuns(pre);
    RunSnoc(pre + REBASELINE, Advance);
    RunSnoc(pre + REBASELINE + [Advance], PollFold(0));
  }

  /** Stores a round still has to make, at most. */
  function Remaining(pc: Pc): nat {
    match pc
    case Outside => 0
    case Based(_, _) => 6
    case Totalled(_, _) => 5
    case Expanding(_, _) => 4
    case ExpandBased(_, _) => 3
    case ExpandTotalled(_) => 2
    case ExpandStarted(_) => 1
    case Keeping(_) => 2
    case KeepStarted(_) => 1
  }

  /** The state once the round's stores are all made with nothing in between. */
  function Completed(s: State): (r: State)
    ensures r.pc.Outside?
    decreases Remaining(s.pc)
  {
    if s.pc.Outside? then s else Completed(Advanced(s))
  }

  lemma CompletedStep(s: State)
    ensures Completed(s) == Completed(Advanced(s))
  {
  }

  lemma CompletedOutside(s: State)
    requires s.pc.Outside?
    ensures Completed(s) == s
  {
  }

  /** What one round leaves, with nothing in between. A wallet position far below the floor
      starts the pass over from there: all of what is left counts and nothing is done yet.
      Otherwise the blocks of completed ranges stay credited against the whole of them and
      what is left, the first round's position stays the start, and the floor holds it. */
  lemma RoundMeaning(s: State, sum: nat, birthday: Option<nat>)
    requires Inv(s) && s.pc.Outside? && s.soFar <= s.m.fetched && s.soFar <= s.m.scanned
    requires 0 < s.soFar + sum && 2000 * (s.soFar + sum) <= U64_MAX
    ensures var seed, m := GlobalSeed(s.tip, birthday, sum), Completed(Apply(s, Round(sum, birthday))).m;
            && m.fetched == s.m.fetched && m.scanned == s.m.scanned
            && (if seed.Some? && seed.value + 50 < s.m.floor then
                  m.total == sum && m.floor == seed.value && m.start == seed && RawPermille(m) == seed.value
                else
                  && m.floor == (if seed.Some? then Max(s.m.floor, seed.value) else s.m.floor)
                  && m.start == (if s.m.start.None? then seed else s.m.start)
                  && m.total == s.soFar + sum
                  && m.total * PassPermille(m) <= 1000 * s.soFar < m.total * (PassPermille(m) + 1))
  {
    hide GlobalSeed, RawPermille, PassPermille, Completed;
    var begun := Apply(s, Round(sum, birthday));
    var seed := GlobalSeed(s.tip, birthday, sum);
    SeedIsPosition(s.tip, birthday, sum);
    RoundStores(s, sum, birthday);
    var m := Completed(begun).m;
    if seed.Some? && seed.value + 50 < s.m.floor {
      BlendAtBaseline(m);
    } else {
      PassIsWorkDone(m);
      Halved(m.total, PassPermille(m), s.soFar);
    }
  }

  lemma Halved(t: nat, v: nat, n: nat)
    requires 2 * t * v <= 1000 * (n + n) < 2 * t * (v + 1)
    ensures t * v <= 1000 * n < t * (v + 1)
  {
    assert 2 * t * v == 2 * (t * v) && 2 * t * (v + 1) == 2 * (t * (v + 1));
  }

  lemma RoundStores(s: State, sum: nat, birthday: Option<nat>)
    requires Inv(s) && s.pc.Outside?
    ensures var seed, m := GlobalSeed(s.tip, birthday, sum), Completed(Apply(s, Round(sum, birthday))).m;
            if seed.Some? && seed.value + 50 < s.m.floor then
              m == s.m.(baseFetched := s.m.fetched, baseScanned := s.m.scanned, total := sum, start := seed,
                        floor := seed.value)
            else
              && m.fetched == s.m.fetched && m.scanned == s.m.scanned && m.total == s.soFar + sum
              && m.baseFetched == SatSub(s.m.fetched, s.soFar) && m.baseScanned == SatSub(s.m.scanned, s.soFar)
              && m.floor == (if seed.Some? then Max(s.m.floor, seed.value) else s.m.floor)
              && m.start == if s.m.start.None? then seed else s.m.start
  {
    hide GlobalSeed, Completed;
    var seed := GlobalSeed(s.tip, birthday, sum);
    SeedIsPosition(s.tip, birthday, sum);
    var s1 := Advanced(Apply(s, Round(sum, birthday)));
    var s2 := Advanced(s1);
    CompletedStep(Apply(s, Round(sum, birthday)));
    CompletedStep(s1);
    if seed.None? {
      CompletedOutside(s2);
    } else if seed.value + 50 < s.m.floor {
      var s3 := Advanced(s2);
      var s4 := Advanced(s3);
      var s5 := Advanced(s4);
      CompletedStep(s2);
      CompletedStep(s3);
      CompletedStep(s4);
      CompletedStep(s5);
      CompletedOutside(Advanced(s5));
    } else {
      CompletedStep(s2);
      CompletedStep(Advanced(s2));
      CompletedOutside(Advanced(Advanced(s2)));
    }
  }

  /** The live counters and the scheduler's credit. */
  class Progress {
    var m: Meter
    var tip: nat
    var soFar: nat

    ghost function View(): State
      reads this
    {
      State(m, tip, soFar, Outside, [])
    }

    constructor ()
      ensures View() == INITIAL
    {
      m, tip, soFar := Meter(0, None, 0, 0, 0, 0, 0), 0, 0;
    }

    /** Folds raw into the floor and returns the floor. */
    method PermilleFloor(raw: nat) returns (floor: nat)
      modifies this`m
      ensures m == old(m).(floor := Folded(old(m.floor), raw)) && floor == m.floor
    {
      m := m.(floor := Max(m.floor, Min(raw, 1000)));
      floor := m.floor;
    }

    method RebaselineFloorIfScopeExpanded(seed: nat) returns (lowered: bool)
      modifies this`m
      ensures lowered == ScopeExpanded(old(m.floor), seed)
      ensures m == if lowered then old(m).(floor := Min(seed, 1000)) else old(m)
    {
      lowered := ScopeExpanded(m.floor, seed);
      if lowered {
        m := m.(floor := Min(seed, 1000));
      }
    }

    /** One suggest round's bookkeeping: all the stores of the model's round, in its order. */
    method UpdatePassProgress(sum: nat, birthday: Option<nat>) returns (rebaselined: bool)
      modifies this
      ensures View() == Completed(Apply(old(View()), Round(sum, birthday)))
      ensures rebaselined ==> m.floor < old(m.floor)
    {
      hide GlobalSeed, Completed;
      m := m.(baseFetched := SatSub(m.fetched, soFar), baseScanned := SatSub(m.scanned, soFar));
      m := m.(total := soFar + sum);
      var seed := GlobalSeed(tip, birthday, sum);
      ghost var begun := Apply(old(View()), Round(sum, birthday));
      ghost var decided := Advanced(Advanced(begun));
      CompletedStep(begun);
      CompletedStep(Advanced(begun));
      if seed.None? {
        CompletedOutside(decided);
        return false;
      }
      if ScopeExpanded(m.floor, seed.value) {
        ghost var s := Advanced(Advanced(Advanced(decided)));
        soFar := 0;
        m := m.(baseFetched := m.fetched, baseScanned := m.scanned);
        m := m.(total := sum);
        m := m.(start := Some(Min(seed.value, 1000)));
        assert s.m == m && s.pc == ExpandStarted(seed.value);
        CompletedStep(decided);
        CompletedStep(Advanced(decided));
        CompletedStep(Advanced(Advanced(decided)));
        CompletedStep(s);
        CompletedOutside(Advanced(s));
        rebaselined := RebaselineFloorIfScopeExpanded(seed.value);
      } else {
        CompletedStep(decided);
        CompletedStep(Advanced(decided));
        CompletedOutside(Advanced(Advanced(decided)));
        if m.start.None? {
          m := m.(start := Some(Min(seed.value, 1000)));
        }
        var _ := PermilleFloor(seed.value);
        rebaselined := false;
      }
    }

    /** The reported value: the blend, or 1000 once done, folded into the floor. */
    method ProgressPermille(done: bool) returns (permille: nat)
      modifies this`m
      ensures permille == m.floor
      ensures View() == Apply(Apply(old(View()), PollRead(done)), PollFold(0))
    {
      hide RawPermille;
      permille := PermilleFloor(if done then 1000 else RawPermille(m));
      assert [if done then 1000 else RawPermille(old(m))][..0] == [];
    }
  }
}
