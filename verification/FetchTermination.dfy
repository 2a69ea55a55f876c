/** Every fetch over well-behaved streams ends: a potential that each step lowers. */
module FetchTermination {
  import opened Prelude
  import opened FetchPlanning
  import opened StreamPump
  import opened ChainContinuity
  import opened FetchProtocol
  import opened FetchInvariant
  import opened FetchContent
  import opened FetchWellBehaved

  function Nat(x: int): nat {
    if x < 0 then 0 else x
  }

  /** What the attempts still open to a worker weigh: every block not yet handed on is
      worth a full round of attempts, and so is a hand-on that resets the count. */
  function Fuel(c: Config, cursor: Cursor, attempt: nat): nat {
    Times(Nat(cursor.end + 1 - cursor.resumeFrom), c.plan.retriesPerChunk + 3)
    + if cursor.emitted then c.plan.retriesPerChunk + 2 else Nat(c.plan.retriesPerChunk + 1 - attempt)
  }

  function Times(a: nat, b: nat): nat {
    a * b
  }

  /** Turns one attempt can take before it hands something on or fails. */
  function Turns(c: Config): nat {
    c.plan.chunkBlocks + 12
  }

  /** How far the worker is within its attempt. */
  function Rank(c: Config, w: Worker): nat {
    match w
    case Reconnecting(_, _) => c.plan.chunkBlocks + 4
    case Opening(_, _) => c.plan.chunkBlocks + 3
    case Streaming(_, _, acc) => Nat(c.plan.chunkBlocks - |acc|) + 2
    case Admitting(_, _, _, _) => 1
    case _ => 0
  }

  function Potential(c: Config, w: Worker): nat {
    match w
    case Connecting => 2
    case Claiming => 1
    case Exited => 0
    case _ => 1 + Times(Fuel(c, w.cursor, w.attempt), Turns(c)) + Rank(c, w)
  }

  function Potentials(c: Config, ws: seq<Worker>): (r: seq<nat>)
    ensures |r| == |ws| && forall i :: 0 <= i < |ws| ==> r[i] == Potential(c, ws[i])
  {
    seq(|ws|, i requires 0 <= i < |ws| => Potential(c, ws[i]))
  }

  /** What a plan chunk weighs before it is claimed. */
  function ChunkWeight(c: Config): nat {
    Times(Times(c.plan.chunkBlocks, c.plan.retriesPerChunk + 3) + c.plan.retriesPerChunk, Turns(c))
    + c.plan.chunkBlocks + 4
  }

  function StageWeight(stage: Stage): nat {
    match stage
    case Receiving => 0
    case Draining => 1
    case Offering(_) => 3
  }

  /** The steps a running fetch can still take, at most. */
  function Bound(c: Config, s: State): nat
    requires c.Valid()
  {
    Sum(Potentials(c, s.workers))
    + Times(Nat(c.plan.ChunkCount() - s.nextClaim), ChunkWeight(c))
    + 6 * |s.channel| + 4 * |s.pending| + StageWeight(s.stage) + |s.held|
  }

  lemma TimesLess(a: nat, b: nat, k: nat)
    requires a < b
    ensures Times(a, k) + k <= Times(b, k)
  {
    assert b * k == a * k + (b - a) * k;
    assert (b - a) * k == k + (b - a - 1) * k;
    assert (b - a - 1) * k >= 0;
  }

  lemma TimesOrder(a: nat, b: nat, k: nat)
    requires a <= b
    ensures Times(a, k) <= Times(b, k)
  {
    if a < b {
      TimesLess(a, b, k);
    }
  }

  // ── What the measure relies on ───────────────────────────────────────────

  /** A worker's attempt count stays within its budget. */
  ghost predicate AttemptOk(c: Config, w: Worker) {
    w.Active() ==> 1 <= w.attempt <= c.plan.retriesPerChunk + 1
  }

  ghost predicate AttemptsOk(c: Config, ws: seq<Worker>) {
    forall id | 0 <= id < |ws| :: AttemptOk(c, ws[id])
  }

  lemma AttemptUpdate(c: Config, ws: seq<Worker>, w: nat, after: Worker)
    requires AttemptsOk(c, ws) && w < |ws| && AttemptOk(c, after)
    ensures AttemptsOk(c, ws[w := after])
  {
  }

  lemma ResolveAttempt(c: Config, s: State, w: nat, cursor: Cursor, attempt: nat, after: Then)
    requires w < |s.workers| && AttemptsOk(c, s.workers) && 1 <= attempt <= c.plan.retriesPerChunk + 1
    ensures var s' := Resolve(c, s, w, cursor, attempt, after);
            s'.status.Running? ==> AttemptsOk(c, s'.workers)
  {
    hide AttemptsOk;
    var s' := Resolve(c, s, w, cursor, attempt, after);
    if s'.status.Running? {
      AttemptUpdate(c, s.workers, w, s'.workers[w]);
    }
  }

  lemma StepAttempts(c: Config, s: State, step: Step)
    requires c.Valid() && Enabled(c, s, step) && AttemptsOk(c, s.workers)
    ensures Apply(c, s, step).status.Running? ==> AttemptsOk(c, Apply(c, s, step).workers)
  {
    hide React, TotalSize, Need, FetchPlan.ChunkStart, FetchPlan.ChunkEnd, FetchPlan.ChunkCount;
    match step
    case Item(w, item) => ItemAttempts(c, s, w, item);
    case Send(w) => SendAttempts(c, s, w);
    case OpenFail(w) => ResolveAttempt(c, s, w, s.workers[w].cursor, s.workers[w].attempt, Fail);
    case _ =>
  }

  lemma ItemAttempts(c: Config, s: State, w: nat, item: StreamItem)
    requires w < |s.workers| && s.workers[w].Streaming? && AttemptsOk(c, s.workers)
    ensures DoItem(c, s, w, item).status.Running? ==> AttemptsOk(c, DoItem(c, s, w, item).workers)
  {
    hide React;
    var p := s.workers[w];
    assert AttemptOk(c, p);
    var r := React(p.cursor.end, c.plan.splitBytes, p.acc, item);
    if r.emit.None? {
      ResolveAttempt(c, s, w, p.cursor, p.attempt, r.after);
    }
  }

  lemma SendAttempts(c: Config, s: State, w: nat)
    requires w < |s.workers| && s.workers[w].Sending? && AttemptsOk(c, s.workers)
    ensures DoSend(c, s, w).status.Running? ==> AttemptsOk(c, DoSend(c, s, w).workers)
  {
    var p := s.workers[w];
    assert AttemptOk(c, p);
    if p.outgoing.blocks != [] {
      var mid := s.(channel := DoSend(c, s, w).channel, sent := DoSend(c, s, w).sent);
      ResolveAttempt(c, mid, w, Advanced(p.cursor, p.outgoing.blocks), p.attempt, p.after);
    }
  }

  lemma {:induction false} RunAttempts(c: Config, steps: seq<Step>)
    requires c.Valid() && Run(c, steps).Some? && Run(c, steps).value.status.Running?
    ensures AttemptsOk(c, Run(c, steps).value.workers)
    decreases |steps|
  {
    hide AttemptsOk, Apply;
    if steps == [] {
      InitAttempts(c);
    } else {
      var before := steps[..|steps| - 1];
      RunAttempts(c, before);
      StepAttempts(c, Run(c, before).value, Last(steps));
    }
  }

  lemma InitAttempts(c: Config)
    requires c.Valid()
    ensures AttemptsOk(c, Init(c).workers)
  {
  }

  /** A worker as the measure needs it. */
  ghost predicate Fit(c: Config, w: Worker) {
    && AttemptOk(c, w)
    && (w.Active() ==> w.cursor.resumeFrom <= w.cursor.end < w.cursor.resumeFrom + c.plan.chunkBlocks)
    && match w
       case Streaming(_, _, acc) => |acc| <= c.plan.chunkBlocks
       case Admitting(cursor, _, e, after) => Forward(cursor, e.blocks)
       case Sending(cursor, _, sub, after) => Forward(cursor, sub.blocks)
       case _ => true
  }

  /** Handing these blocks on moves the cursor forward, to the end at most. */
  ghost predicate Forward(cursor: Cursor, blocks: seq<Block>) {
    blocks != [] && cursor.resumeFrom <= Last(blocks).height <= cursor.end
  }

  lemma PoliteIsFit(c: Config, s: State, w: nat)
    requires c.Valid() && w < |s.workers| && AttemptsOk(c, s.workers)
    requires WorkersContent(c, s.workers) && Polite(c, s.workers, s.sent)
    ensures Fit(c, s.workers[w])
  {
    assert AttemptOk(c, s.workers[w]);
    assert WorkerContent(c, s.workers[w]);
    var p := s.workers[w];
    assert PolitePhase(p, c.plan.splitBytes);
    if p.Active() {
      assert p.cursor.resumeFrom >= c.plan.ChunkStart(p.cursor.plan);
    }
  }

  // ── Each step lowers the bound ───────────────────────────────────────────

  lemma PotentialsUpdate(c: Config, ws: seq<Worker>, w: nat, after: Worker)
    requires w < |ws|
    ensures Sum(Potentials(c, ws[w := after])) == Sum(Potentials(c, ws)) - Potential(c, ws[w]) + Potential(c, after)
  {
    hide Potential;
    SumUpdate(Potentials(c, ws), w, Potential(c, after));
    assert Potentials(c, ws[w := after]) == Potentials(c, ws)[w := Potential(c, after)];
  }

  /** A failed attempt that may be retried has burnt fuel. */
  lemma RetryBurns(c: Config, cursor: Cursor, attempt: nat)
    requires 1 <= attempt <= c.plan.retriesPerChunk + 1
    requires NextAttempt(attempt, cursor.emitted, c.plan.retriesPerChunk).Some?
    ensures Fuel(c, cursor.(emitted := false), NextAttempt(attempt, cursor.emitted, c.plan.retriesPerChunk).value)
            < Fuel(c, cursor, attempt)
  {
    hide Times;
  }

  /** Handing blocks on burns fuel. */
  lemma HandOnBurns(c: Config, cursor: Cursor, attempt: nat, blocks: seq<Block>)
    requires 1 <= attempt <= c.plan.retriesPerChunk + 1 && Forward(cursor, blocks)
    ensures Fuel(c, Advanced(cursor, blocks), attempt) < Fuel(c, cursor, attempt)
  {
    hide Times;
    var left, after := Nat(cursor.end + 1 - cursor.resumeFrom), Nat(cursor.end - Last(blocks).height);
    TimesLess(after, left, c.plan.retriesPerChunk + 3);
  }

  /** What resolving a pump turn costs, on a cursor whose fuel is f. */
  lemma ResolveLowers(c: Config, s: State, w: nat, cursor: Cursor, attempt: nat, after: Then, f: nat)
    requires w < |s.workers| && s.status.Running? && 1 <= attempt <= c.plan.retriesPerChunk + 1
    requires Fuel(c, cursor, attempt) <= f
    ensures var s' := Resolve(c, s, w, cursor, attempt, after);
            s'.status.Running? ==>
              && s'.workers == s.workers[w := s'.workers[w]]
              && (after.Continue? ==>
                    Potential(c, s'.workers[w]) <= 1 + Times(f, Turns(c)) + Nat(c.plan.chunkBlocks - |after.acc|) + 2)
              && (after.Complete? ==> Potential(c, s'.workers[w]) == 1)
              && (after.Fail? ==> Potential(c, s'.workers[w]) + 7 <= Times(f, Turns(c)))
  {
    hide Fuel, Times;
    TimesOrder(Fuel(c, cursor, attempt), f, Turns(c));
    if after.Fail? && NextAttempt(attempt, cursor.emitted, c.plan.retriesPerChunk).Some? {
      RetryBurns(c, cursor, attempt);
      var next := NextAttempt(attempt, cursor.emitted, c.plan.retriesPerChunk).value;
      var again := Fuel(c, cursor.(emitted := false), next);
      TimesLess(again, f, Turns(c));
    }
  }

  lemma ItemLowers(c: Config, s: State, w: nat, item: StreamItem)
    requires w < |s.workers| && s.workers[w].Streaming? && s.status.Running? && Fit(c, s.workers[w])
    requires item.Received? ==> |s.workers[w].acc| < c.plan.chunkBlocks
    ensures var s' := DoItem(c, s, w, item);
            s'.status.Running? ==>
              s'.workers == s.workers[w := s'.workers[w]] && Potential(c, s'.workers[w]) < Potential(c, s.workers[w])
  {
    hide Fuel, Times, TotalSize;
    var p := s.workers[w];
    var r := React(p.cursor.end, c.plan.splitBytes, p.acc, item);
    if r.emit.None? {
      ResolveLowers(c, s, w, p.cursor, p.attempt, r.after, Fuel(c, p.cursor, p.attempt));
    }
  }

  lemma SendLowers(c: Config, s: State, w: nat)
    requires w < |s.workers| && s.workers[w].Sending? && s.status.Running? && Fit(c, s.workers[w])
    ensures var s' := DoSend(c, s, w);
            s'.status.Running? ==>
              && s'.workers == s.workers[w := s'.workers[w]]
              && Potential(c, s'.workers[w]) + 6 < Potential(c, s.workers[w])
  {
    hide Fuel, Times, BlocksOf;
    var p := s.workers[w];
    var moved := Advanced(p.cursor, p.outgoing.blocks);
    var mid := s.(channel := DoSend(c, s, w).channel, sent := DoSend(c, s, w).sent);
    HandOnBurns(c, p.cursor, p.attempt, p.outgoing.blocks);
    ResolveLowers(c, mid, w, moved, p.attempt, p.after, Fuel(c, moved, p.attempt));
    TimesLess(Fuel(c, moved, p.attempt), Fuel(c, p.cursor, p.attempt), Turns(c));
  }

  lemma OpenFailLowers(c: Config, s: State, w: nat)
    requires w < |s.workers| && s.workers[w].Opening? && s.status.Running? && Fit(c, s.workers[w])
    ensures var s' := Resolve(c, s, w, s.workers[w].cursor, s.workers[w].attempt, Fail);
            s'.status.Running? ==>
              s'.workers == s.workers[w := s'.workers[w]] && Potential(c, s'.workers[w]) < Potential(c, s.workers[w])
  {
    hide Fuel, Times;
    var p := s.workers[w];
    ResolveLowers(c, s, w, p.cursor, p.attempt, Fail, Fuel(c, p.cursor, p.attempt));
  }

  /** Claiming a plan chunk costs no more than the chunk weighed. */
  lemma ClaimLowers(c: Config, s: State, w: nat)
    requires c.Valid() && w < |s.workers| && s.workers[w].Claiming?
    ensures var s' := DoClaim(c, s, w);
            && s'.workers == s.workers[w := s'.workers[w]]
            && Potential(c, s'.workers[w]) + Times(Nat(c.plan.ChunkCount() - s'.nextClaim), ChunkWeight(c))
               < Potential(c, s.workers[w]) + Times(Nat(c.plan.ChunkCount() - s.nextClaim), ChunkWeight(c))
  {
    hide Times, FetchPlan.ChunkStart, FetchPlan.ChunkCount;
    var k := s.nextClaim;
    if k < c.plan.ChunkCount() {
      var blocks := Nat(c.plan.ChunkEnd(k) + 1 - c.plan.ChunkStart(k));
      TimesOrder(blocks, c.plan.chunkBlocks, c.plan.retriesPerChunk + 3);
      TimesOrder(Times(blocks, c.plan.retriesPerChunk + 3) + c.plan.retriesPerChunk,
                 Times(c.plan.chunkBlocks, c.plan.retriesPerChunk + 3) + c.plan.retriesPerChunk, Turns(c));
      TimesLess(Nat(c.plan.ChunkCount() - k - 1), Nat(c.plan.ChunkCount() - k), ChunkWeight(c));
    }
  }

  /** Where a worker's step leaves everything but that worker as it was. */
  ghost predicate OnlyWorker(s: State, s': State, w: nat) {
    && w < |s.workers| == |s'.workers| && s'.workers == s.workers[w := s'.workers[w]]
    && s'.stage == s.stage && s'.pending == s.pending && s'.held == s.held
  }

  lemma WorkerLowers(c: Config, s: State, s': State, w: nat)
    requires c.Valid() && OnlyWorker(s, s', w)
    requires Potential(c, s'.workers[w]) + Times(Nat(c.plan.ChunkCount() - s'.nextClaim), ChunkWeight(c))
             + 6 * |s'.channel|
             < Potential(c, s.workers[w]) + Times(Nat(c.plan.ChunkCount() - s.nextClaim), ChunkWeight(c))
             + 6 * |s.channel|
    ensures Bound(c, s') < Bound(c, s)
  {
    hide Potential, Potentials, Times, Sum, FetchPlan.ChunkCount, ChunkWeight;
    PotentialsUpdate(c, s.workers, w, s'.workers[w]);
  }

  lemma WorkerStepLowers(c: Config, s: State, step: Step, w: nat)
    requires c.Valid() && Enabled(c, s, step) && w < |s.workers| && Fit(c, s.workers[w])
    requires step == Connect(w) || step == OpenOk(w) || step == OpenFail(w) || step == Reconnect(w)
             || step == Claim(w) || (step.Admit? && step.w == w)
    ensures var s' := Apply(c, s, step); s'.status.Running? ==> Bound(c, s') < Bound(c, s)
  {
    hide Bound, Times, ChunkWeight, Fuel, FetchPlan.ChunkCount, FetchPlan.ChunkStart, FetchPlan.ChunkEnd;
    var s' := Apply(c, s, step);
    if step.OpenFail? {
      OpenFailLowers(c, s, w);
    } else if step.Claim? {
      ClaimLowers(c, s, w);
    }
    if s'.status.Running? {
      WorkerLowers(c, s, s', w);
    }
  }

  lemma StreamStepLowers(c: Config, s: State, step: Step, w: nat)
    requires c.Valid() && Enabled(c, s, step) && w < |s.workers| && Fit(c, s.workers[w])
    requires step == Send(w) || (step.Item? && step.w == w)
    requires step.Item? && step.item.Received? ==> |s.workers[w].acc| < c.plan.chunkBlocks
    ensures var s' := Apply(c, s, step); s'.status.Running? ==> Bound(c, s') < Bound(c, s)
  {
    hide Bound, Times, ChunkWeight, Fuel, React, FetchPlan.ChunkCount, FetchPlan.ChunkStart, FetchPlan.ChunkEnd;
    var s' := Apply(c, s, step);
    if step.Item? {
      ItemLowers(c, s, w, step.item);
    } else {
      SendLowers(c, s, w);
    }
    if s'.status.Running? {
      WorkerLowers(c, s, s', w);
    }
  }

  lemma BufferSizes(m: Buffer, k: (nat, nat), sub: SubChunk)
    ensures |m[k := sub]| <= |m| + 1
    ensures k in m ==> |m - {k}| == |m| - 1
  {
    assert m[k := sub].Keys == m.Keys + {k};
    assert (m - {k}).Keys == m.Keys - {k};
  }

  /** What the release stage and the consumer still have to do. */
  function StageBound(s: State): nat {
    6 * |s.channel| + 4 * |s.pending| + StageWeight(s.stage) + |s.held|
  }

  lemma StageLowers(c: Config, s: State, s': State)
    requires c.Valid() && s'.workers == s.workers && s'.nextClaim == s.nextClaim && StageBound(s') < StageBound(s)
    ensures Bound(c, s') < Bound(c, s)
  {
    hide Potentials, Times, Sum, ChunkWeight, FetchPlan.ChunkCount;
  }

  lemma ArriveLowers(s: State)
    requires s.stage.Receiving? && s.channel != []
    ensures StageBound(DoArrive(s)) < StageBound(s)
  {
    var sub := s.channel[0];
    BufferSizes(s.pending, (sub.plan, sub.sub), sub);
  }

  lemma DrainLowers(s: State)
    requires s.stage.Draining? && s.status.Running?
    ensures DoDrain(s).status.Running? ==> StageBound(DoDrain(s)) < StageBound(s)
  {
    hide Verify;
    if s.next in s.pending {
      BufferSizes(s.pending, s.next, s.pending[s.next]);
    }
  }

  lemma DeliverLowers(c: Config, s: State)
    requires s.stage.Offering?
    ensures StageBound(DoDeliver(c, s)) < StageBound(s)
  {
    hide Need, TotalSize;
  }

  lemma StageStepLowers(c: Config, s: State, step: Step)
    requires c.Valid() && Enabled(c, s, step)
    requires step.Arrive? || step.Drain? || step.Deliver? || step.ConsumerDrop?
    ensures var s' := Apply(c, s, step); s'.status.Running? ==> Bound(c, s') < Bound(c, s)
  {
    hide Bound, Verify, Need, TotalSize;
    var s' := Apply(c, s, step);
    match step {
      case Arrive => ArriveLowers(s);
      case Drain => DrainLowers(s);
      case Deliver => DeliverLowers(c, s);
      case ConsumerDrop(_) =>
    }
    if s'.status.Running? {
      StageLowers(c, s, s');
    }
  }

  /** Every step of a fetch over well-behaved streams lowers the bound, or ends the fetch. */
  lemma StepLowers(c: Config, s: State, step: Step)
    requires c.Valid() && Enabled(c, s, step) && PoliteStep(s, step)
    requires AttemptsOk(c, s.workers) && WorkersContent(c, s.workers) && Polite(c, s.workers, s.sent)
    ensures var s' := Apply(c, s, step); s'.status.Running? ==> Bound(c, s') < Bound(c, s)
  {
    hide Bound, Apply, Fit, AttemptsOk, WorkersContent, Polite;
    match step
    case Connect(w) => PoliteIsFit(c, s, w); WorkerStepLowers(c, s, step, w);
    case Claim(w) => PoliteIsFit(c, s, w); WorkerStepLowers(c, s, step, w);
    case OpenOk(w) => PoliteIsFit(c, s, w); WorkerStepLowers(c, s, step, w);
    case OpenFail(w) => PoliteIsFit(c, s, w); WorkerStepLowers(c, s, step, w);
    case Reconnect(w) => PoliteIsFit(c, s, w); WorkerStepLowers(c, s, step, w);
    case Admit(w, _) => PoliteIsFit(c, s, w); WorkerStepLowers(c, s, step, w);
    case Send(w) => PoliteIsFit(c, s, w); StreamStepLowers(c, s, step, w);
    case Item(w, item) =>
      PoliteIsFit(c, s, w);
      ItemFits(c, s, w, item);
      StreamStepLowers(c, s, step, w);
    case Arrive => StageStepLowers(c, s, step);
    case Drain => StageStepLowers(c, s, step);
    case Deliver => StageStepLowers(c, s, step);
    case ConsumerDrop(_) => StageStepLowers(c, s, step);
    case _ => EndingStep(c, s, step);
  }

  /** The remaining steps end the fetch. */
  lemma EndingStep(c: Config, s: State, step: Step)
    requires c.Valid() && Enabled(c, s, step)
    requires step.ConnectFail? || step.ReconnectFail? || step.Panic? || step.ReleaseError? || step.Finish?
    ensures !Apply(c, s, step).status.Running?
  {
  }

  /** A well-behaved stream's next block still fits the accumulator's bound. */
  lemma ItemFits(c: Config, s: State, w: nat, item: StreamItem)
    requires w < |s.workers| && s.workers[w].Streaming? && PoliteStep(s, Item(w, item)) && Fit(c, s.workers[w])
    ensures item.Received? ==> |s.workers[w].acc| < c.plan.chunkBlocks
  {
  }

  lemma {:induction false} RunLowers(c: Config, steps: seq<Step>)
    requires c.Valid() && Run(c, steps).Some? && PoliteRun(c, steps)
    ensures Run(c, steps).value.status.Running? ==> |steps| + Bound(c, Run(c, steps).value) <= Bound(c, Init(c))
    ensures |steps| <= Bound(c, Init(c)) + 1
    decreases |steps|
  {
    hide Bound, Apply, PoliteStep, AttemptsOk, Inv, WorkersContent, SentContent, Polite, Tiled, Init;
    if steps != [] {
      var before := steps[..|steps| - 1];
      RunLowers(c, before);
      RunContent(c, before);
      RunPolite(c, before);
      RunAttempts(c, before);
      StepLowers(c, Run(c, before).value, Last(steps));
    }
  }

  /** The most steps any fetch of this plan can take. */
  function StepLimit(c: Config): nat
    requires c.Valid()
  {
    2 * c.plan.WorkerCount() + Times(c.plan.ChunkCount(), ChunkWeight(c)) + 1
  }

  lemma {:induction false} SumConstant(s: seq<nat>, x: nat)
    requires forall i :: 0 <= i < |s| ==> s[i] == x
    ensures Sum(s) == x * |s|
  {
    if s != [] {
      SumConstant(s[1..], x);
    }
  }

  /** Over well-behaved streams, however they break, fail and are retried, every run of the
      fetch stops within a number of steps that the plan alone fixes. */
  lemma FetchTerminates(c: Config, steps: seq<Step>)
    requires c.Valid() && Run(c, steps).Some? && PoliteRun(c, steps)
    ensures |steps| <= StepLimit(c)
  {
    hide Times, ChunkWeight, Run, PoliteRun, FetchPlan.ChunkCount, FetchPlan.WorkerCount;
    RunLowers(c, steps);
    SumConstant(Potentials(c, Init(c).workers), 2);
  }
}
