/**
 * Stopping a sync session. Passes run concurrently with the host and finish
 * some time after they are aborted; a live pass takes a writer gate before it
 * hands a commit to a detached thread, and the gate is released when that
 * commit ends. A stop, or the quiesce before a start, aborts the pass in the
 * slot, waits for every pass on record, then waits for the writers.
 */
module StopQuiescence {
  import opened Prelude

  datatype Pass = Pass(finished: bool, aborted: bool, gates: nat)

  /** Where the host thread is; a call is a stop or the quiesce before a start. */
  datatype Host =
    | Free
    | Settling(starting: bool)
    | Draining(starting: bool, settled: bool)
    | Spawning

  datatype Report = NoReport | Report(settled: bool, drained: bool)

  datatype State = State(
    passes: seq<Pass>,      // every pass ever spawned
    task: Option<nat>,      // the running pass's slot
    unfinished: seq<nat>,   // aborted passes still on record
    writers: nat,           // the writer gate count
    commits: nat,           // detached commits in flight, each holding a gate
    host: Host,
    report: Report)         // the latest report, until the next pass is spawned

  datatype Step =
    | Call(starting: bool)
    | SettlePoll(timeout: bool)
    | DrainPoll(timeout: bool)
    | SpawnPass
    | TakeGate(id: nat)
    | HandOff(id: nat)
    | EndCommit
    | Finish(id: nat)

  const INITIAL: State := State([], None, [], 0, 0, Free, NoReport)

  predicate LivePass(s: State, id: nat) {
    id < |s.passes| && !s.passes[id].finished
  }

  predicate Enabled(s: State, a: Step) {
    match a
    case Call(_) => s.host.Free?
    case SettlePoll(_) => s.host.Settling?
    case DrainPoll(_) => s.host.Draining?
    case SpawnPass => s.host.Spawning?
    case TakeGate(id) => LivePass(s, id)
    case HandOff(id) => LivePass(s, id) && s.passes[id].gates > 0
    case EndCommit => s.commits > 0 && s.writers > 0
    case Finish(id) => LivePass(s, id) && s.passes[id].gates <= s.writers
  }

  /** The passes on record that have not finished yet. */
  function StillRunning(passes: seq<Pass>, record: seq<nat>): (r: seq<nat>)
    ensures forall i :: 0 <= i < |r| ==> r[i] in record && !(r[i] < |passes| && passes[r[i]].finished)
    ensures forall id :: id in record && !(id < |passes| && passes[id].finished) ==> id in r
  {
    if record == [] then []
    else
      var keep := if record[0] < |passes| && passes[record[0]].finished then [] else [record[0]];
      keep + StillRunning(passes, record[1..])
  }

  function Apply(s: State, a: Step): State
    requires Enabled(s, a)
  {
    match a
    case Call(starting) =>
      if s.task.Some? then
        s.(task := None,
           unfinished := s.unfinished + [s.task.value],
           passes := if s.task.value < |s.passes|
                     then s.passes[s.task.value := s.passes[s.task.value].(aborted := true)]
                     else s.passes,
           host := Settling(starting))
      else s.(host := Settling(starting))
    case SettlePoll(timeout) =>
      var left := StillRunning(s.passes, s.unfinished);
      s.(unfinished := left,
         host := if left == [] then Draining(s.host.starting, true)
                 else if timeout then Draining(s.host.starting, false)
                 else s.host)
    case DrainPoll(timeout) =>
      if s.writers == 0 then Returned(s, true)
      else if timeout then Returned(s, false)
      else s
    case SpawnPass =>
      s.(passes := s.passes + [Pass(false, false, 0)], task := Some(|s.passes|), host := Free, report := NoReport)
    case TakeGate(id) =>
      s.(passes := s.passes[id := s.passes[id].(gates := s.passes[id].gates + 1)], writers := s.writers + 1)
    case HandOff(id) =>
      s.(passes := s.passes[id := s.passes[id].(gates := s.passes[id].gates - 1)], commits := s.commits + 1)
    case EndCommit =>
      s.(commits := s.commits - 1, writers := s.writers - 1)
    case Finish(id) =>
      // Unwinding drops the gates the pass still holds.
      s.(passes := s.passes[id := s.passes[id].(finished := true, gates := 0)],
         writers := s.writers - s.passes[id].gates)
  }

  /** The call returns its report; a start goes on to spawn whatever it says. */
  function Returned(s: State, drained: bool): State
    requires s.host.Draining?
  {
    s.(report := Report(s.host.settled, drained), host := if s.host.starting then Spawning else Free)
  }

  /** The state after a sequence of steps, or None where one of them was not enabled. */
  function Run(steps: seq<Step>): Option<State> {
    if steps == [] then Some(INITIAL)
    else
      var before := Run(steps[..|steps| - 1]);
      if before.Some? && Enabled(before.value, Last(steps)) then Some(Apply(before.value, Last(steps))) else None
  }

  function GatesOf(passes: seq<Pass>): (r: seq<nat>)
    ensures |r| == |passes| && forall i :: 0 <= i < |r| ==> r[i] == passes[i].gates
  {
    seq(|passes|, i requires 0 <= i < |passes| => passes[i].gates)
  }

  /** Every pass that has not finished is in the slot or on record. */
  ghost predicate Remembered(s: State) {
    forall id :: 0 <= id < |s.passes| && !s.passes[id].finished ==> s.task == Some(id) || id in s.unfinished
  }

  /** An aborted pass stays on record, not in the slot. */
  ghost predicate AbortedOnRecord(s: State) {
    && (forall i :: 0 <= i < |s.unfinished| ==> s.unfinished[i] < |s.passes| && s.passes[s.unfinished[i]].aborted)
    && (s.task.Some? ==> s.task.value < |s.passes| && !s.passes[s.task.value].aborted)
  }

  ghost predicate AllFinished(s: State) {
    forall id :: 0 <= id < |s.passes| ==> s.passes[id].finished
  }

  /** The gate count is the commits in flight plus the gates still held by passes. */
  ghost predicate GatesCounted(s: State) {
    && s.writers == s.commits + Sum(GatesOf(s.passes))
    && forall id :: 0 <= id < |s.passes| && s.passes[id].finished ==> s.passes[id].gates == 0
  }

  ghost predicate HostOk(s: State) {
    && (s.host.Settling? || s.host.Draining? || s.host.Spawning? ==> s.task == None)
    && (s.host.Draining? && s.host.settled ==> AllFinished(s))
    && (s.report == Report(true, true) ==> AllFinished(s) && s.writers == 0)
  }

  ghost predicate Inv(s: State) {
    Remembered(s) && AbortedOnRecord(s) && GatesCounted(s) && HostOk(s)
  }

  lemma {:induction false} SumAtLeast(s: seq<nat>, i: nat)
    requires i < |s|
    ensures s[i] <= Sum(s)
  {
    if i > 0 {
      SumAtLeast(s[1..], i - 1);
    }
  }

  /** Changing one pass's gates moves their sum by the difference. */
  lemma GatesMove(passes: seq<Pass>, id: nat, p: Pass)
    requires id < |passes|
    ensures Sum(GatesOf(passes[id := p])) == Sum(GatesOf(passes)) - passes[id].gates + p.gates
    ensures passes[id].gates <= Sum(GatesOf(passes))
  {
    SumUpdate(GatesOf(passes), id, p.gates);
    SumAtLeast(GatesOf(passes), id);
    assert GatesOf(passes[id := p]) == GatesOf(passes)[id := p.gates];
  }

  lemma GatesSpawn(passes: seq<Pass>)
    ensures Sum(GatesOf(passes + [Pass(false, false, 0)])) == Sum(GatesOf(passes))
  {
    assert GatesOf(passes + [Pass(false, false, 0)]) == GatesOf(passes) + [0];
    SumAppend(GatesOf(passes), [0]);
    SumZeros([0]);
  }

  lemma GatesCountedKept(s: State, a: Step)
    requires GatesCounted(s) && Enabled(s, a)
    ensures GatesCounted(Apply(s, a))
  {
    hide GatesOf, Sum, StillRunning;
    match a
    case Call(starting) =>
      if s.task.Some? && s.task.value < |s.passes| {
        GatesMove(s.passes, s.task.value, s.passes[s.task.value].(aborted := true));
      }
    case SettlePoll(_) =>
    case DrainPoll(_) =>
    case SpawnPass =>
      GatesSpawn(s.passes);
    case TakeGate(id) =>
      GatesMove(s.passes, id, s.passes[id].(gates := s.passes[id].gates + 1));
    case HandOff(id) =>
      GatesMove(s.passes, id, s.passes[id].(gates := s.passes[id].gates - 1));
    case EndCommit =>
    case Finish(id) =>
      GatesMove(s.passes, id, s.passes[id].(finished := true, gates := 0));
  }

  lemma RememberedKept(s: State, a: Step)
    requires Remembered(s) && AbortedOnRecord(s) && Enabled(s, a) && HostOk(s)
    ensures Remembered(Apply(s, a)) && AbortedOnRecord(Apply(s, a))
  {
    hide GatesOf, AllFinished;
  }

  /** Once all passes have finished only their commits can still end. */
  lemma HostOkKept(s: State, a: Step)
    requires Inv(s) && Enabled(s, a)
    ensures HostOk(Apply(s, a))
  {
    hide GatesOf;
    if a.SettlePoll? && Apply(s, a).unfinished == [] {
      assert AllFinished(s);
    }
  }

  /** What every step keeps, from the start of the process. */
  lemma {:induction false} RunKeeps(steps: seq<Step>)
    requires Run(steps).Some?
    ensures Inv(Run(steps).value)
  {
    if steps == [] {
      assert GatesOf([]) == [];
    } else {
      var before := Run(steps[..|steps| - 1]).value;
      RunKeeps(steps[..|steps| - 1]);
      GatesCountedKept(before, Last(steps));
      RememberedKept(before, Last(steps));
      HostOkKept(before, Last(steps));
    }
  }

  /** A pass that was aborted and has not finished is on record, in every reachable state. */
  lemma {:induction false} NeverForgotten(steps: seq<Step>, id: nat)
    requires Run(steps).Some?
    requires id < |Run(steps).value.passes|
    requires var p := Run(steps).value.passes[id]; p.aborted && !p.finished
    ensures id in Run(steps).value.unfinished
  {
    hide GatesOf, Run;
    RunKeeps(steps);
  }

  /** Gates never run out: every commit and every pass can give back what it took. */
  lemma GatesSuffice(steps: seq<Step>, id: nat)
    requires Run(steps).Some?
    ensures var s := Run(steps).value;
            && s.commits <= s.writers
            && (id < |s.passes| ==> s.passes[id].gates <= s.writers)
  {
    hide Run;
    RunKeeps(steps);
    var s := Run(steps).value;
    if id < |s.passes| {
      SumAtLeast(GatesOf(s.passes), id);
    }
  }

  /** No pass is running, nothing writes, and nothing can begin to. */
  ghost predicate Quiet(s: State) {
    && AllFinished(s) && s.writers == 0 && s.commits == 0
    && forall id: nat :: !Enabled(s, TakeGate(id)) && !Enabled(s, HandOff(id))
  }

  /** A report of quiescence is true when it is made. */
  lemma QuiescentIsQuiet(steps: seq<Step>)
    requires Run(steps).Some? && Run(steps).value.report == Report(true, true)
    ensures Quiet(Run(steps).value)
  {
    hide Run;
    RunKeeps(steps);
  }

  /** And it stays true, over any steps whatever, until the next pass is spawned. */
  lemma {:induction false} QuietUntilStart(steps: seq<Step>, k: nat)
    requires k <= |steps| && Run(steps[..k]).Some? && Run(steps[..k]).value.report == Report(true, true)
    requires Run(steps).Some? && forall i :: k <= i < |steps| ==> steps[i] != SpawnPass
    ensures Quiet(Run(steps).value)
    decreases |steps|
  {
    if k == |steps| {
      assert steps[..k] == steps;
      QuiescentIsQuiet(steps);
    } else {
      var pre := steps[..|steps| - 1];
      assert pre[..k] == steps[..k];
      QuietUntilStart(pre, k);
      StillQuiet(Run(pre).value, Last(steps));
    }
  }

  lemma StillQuiet(s: State, a: Step)
    requires Quiet(s) && Enabled(s, a) && a != SpawnPass
    ensures Quiet(Apply(s, a))
  {
    hide GatesOf, StillRunning;
  }

  /** Some pass on record has not finished. */
  ghost predicate SomeRunning(s: State) {
    exists id :: 0 <= id < |s.passes| && !s.passes[id].finished && id in s.unfinished
  }

  /** A settle poll ends settled exactly when nothing on record is running, ends refused
      exactly when its deadline passes with something running, and else goes on; a drain poll
      does the same for held gates. So a call that does not report quiescence saw a running
      pass or a held gate at its deadline, and one that does did not wait for it. */
  lemma RefusalHasReason(s: State, a: Step)
    requires Inv(s) && Enabled(s, a)
    ensures a.SettlePoll? ==>
              Apply(s, a).host == if !SomeRunning(s) then Draining(s.host.starting, true)
                                  else if a.timeout then Draining(s.host.starting, false)
                                  else s.host
    ensures a.DrainPoll? && (s.writers == 0 || a.timeout) ==>
              && Apply(s, a).report == Report(s.host.settled, s.writers == 0)
              && Apply(s, a).host == if s.host.starting then Spawning else Free
    ensures a.DrainPoll? && s.writers > 0 && !a.timeout ==> Apply(s, a) == s
  {
    if a.SettlePoll? {
      var left := StillRunning(s.passes, s.unfinished);
      if left != [] {
        assert left[0] in s.unfinished;
      }
    }
  }

  /** How many starts the host has called. */
  function Starts(steps: seq<Step>): nat {
    if steps == [] then 0 else Starts(steps[..|steps| - 1]) + if Last(steps) == Call(true) then 1 else 0
  }

  /** The host is on its way to spawning a pass. */
  predicate OnItsWay(h: Host) {
    h.Spawning? || ((h.Settling? || h.Draining?) && h.starting)
  }

  /** Every start spawns one pass, whatever its quiesce reports, and a stop spawns none. */
  lemma {:induction false} EveryStartSpawns(steps: seq<Step>)
    requires Run(steps).Some?
    ensures var s := Run(steps).value; |s.passes| + (if OnItsWay(s.host) then 1 else 0) == Starts(steps)
  {
    hide Apply, Enabled;
    if steps != [] {
      EveryStartSpawns(steps[..|steps| - 1]);
      StepSpawns(Run(steps[..|steps| - 1]).value, Last(steps));
    }
  }

  lemma StepSpawns(s: State, a: Step)
    requires Enabled(s, a)
    ensures var s' := Apply(s, a);
            |s'.passes| + (if OnItsWay(s'.host) then 1 else 0)
            == |s.passes| + (if OnItsWay(s.host) then 1 else 0) + if a == Call(true) then 1 else 0
  {
    hide StillRunning;
  }

  /** Everything seen finished by some poll. */
  function SeenFinished(polls: seq<set<nat>>): set<nat> {
    if polls == [] then {} else SeenFinished(polls[..|polls| - 1]) + polls[|polls| - 1]
  }

  function Without(record: seq<nat>, gone: set<nat>): (r: seq<nat>)
    ensures forall id :: id in r <==> id in record && id !in gone
  {
    if record == [] then []
    else (if record[0] in gone then [] else [record[0]]) + Without(record[1..], gone)
  }

  lemma WithoutCons(x: nat, rest: seq<nat>, gone: set<nat>)
    ensures Without([x] + rest, gone) == if x in gone then Without(rest, gone) else [x] + Without(rest, gone)
  {
    assert ([x] + rest)[1..] == rest;
  }

  lemma {:induction false} WithoutTwice(record: seq<nat>, a: set<nat>, b: set<nat>)
    ensures Without(Without(record, a), b) == Without(record, a + b)
    decreases |record|, 0
  {
    if record == [] {
    } else {
      var x, rest := record[0], record[1..];
      WithoutTwiceStep(x, rest, a, b);
      assert record == [x] + rest;
    }
  }

  lemma WithoutTwiceStep(x: nat, rest: seq<nat>, a: set<nat>, b: set<nat>)
    ensures Without(Without([x] + rest, a), b) == Without([x] + rest, a + b)
    decreases |rest|, 1
  {
    hide Without;
    WithoutTwice(rest, a, b);
    WithoutCons(x, rest, a);
    WithoutCons(x, rest, a + b);
    WithoutCons(x, Without(rest, a), b);
  }

  /** The host's side of the settle: its slot and its record of aborted passes. */
  class PassRecord {
    var task: Option<nat>
    var unfinished: seq<nat>

    constructor ()
      ensures task == None && unfinished == []
    {
      task, unfinished := None, [];
    }

    /** The passes a stop has to answer for. */
    function OnRecord(): seq<nat>
      reads this
    {
      if task.Some? then unfinished + [task.value] else unfinished
    }

    /**
     * Takes the slot's pass onto the record and polls until nothing on record
     * is left or the polls before the deadline are used up. polls holds, for
     * each poll in turn, the passes that have finished by then.
     */
    method Settle(polls: seq<set<nat>>) returns (settled: bool)
      requires polls != []
      modifies this
      ensures task == None
      ensures settled <==> forall id :: id in old(OnRecord()) ==> id in SeenFinished(polls)
      ensures settled ==> unfinished == []
      ensures !settled ==> unfinished == Without(old(OnRecord()), SeenFinished(polls))
    {
      if task.Some? {
        unfinished := unfinished + [task.value];
        task := None;
      }
      ghost var record := unfinished;
      NothingGone(record);
      settled := false;
      for k := 0 to |polls|
        invariant task == None && !settled
        invariant unfinished == Without(record, SeenFinished(polls[..k]))
        invariant k > 0 ==> unfinished != []
      {
        assert polls[..k + 1][..k] == polls[..k];
        WithoutTwice(record, SeenFinished(polls[..k]), polls[k]);
        unfinished := Without(unfinished, polls[k]);
        if unfinished == [] {
          settled := true;
          SeenGrows(polls, k + 1);
          assert forall id :: id in record ==> id in SeenFinished(polls[..k + 1]) by {
            forall id | id in record ensures id in SeenFinished(polls[..k + 1]) {
              assert id !in Without(record, SeenFinished(polls[..k + 1]));
            }
          }
          return;
        }
      }
      assert polls[..|polls|] == polls;
      assert unfinished[0] in record && unfinished[0] !in SeenFinished(polls);
    }
  }

  lemma {:induction false} NothingGone(record: seq<nat>)
    ensures Without(record, SeenFinished([])) == record
  {
    if record != [] {
      NothingGone(record[1..]);
    }
  }

  lemma {:induction false} SeenGrows(polls: seq<set<nat>>, k: nat)
    requires k <= |polls|
    ensures SeenFinished(polls[..k]) <= SeenFinished(polls)
  {
    if k == |polls| {
      assert polls[..k] == polls;
    } else {
      assert polls[..|polls| - 1][..k] == polls[..k];
      SeenGrows(polls[..|polls| - 1], k);
    }
  }
}
