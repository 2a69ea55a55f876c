/** What the fetch's two byte budgets, its channel and its failure record promise in every
    reachable state, said on the blocks themselves and not on the permits. */
module FetchBounds {
  import opened Prelude
  import opened FetchPlanning
  import opened StreamPump
  import opened FetchProtocol
  import opened FetchInvariant
  import opened FetchSteps
  import opened FetchContent

  /** A byte count that no single acquisition may exceed: the budget's, or a `u32`'s. */
  function Capped(bytes: nat, cap: nat): nat {
    Min(Min(bytes, cap), U32_MAX)
  }

  /** A permit for so many bytes covers them up to the cap, and asks for no more than the
      bytes, but for one. */
  lemma NeedCovers(bytes: nat, cap: nat)
    requires cap > 0
    ensures Capped(bytes, cap) <= Need(bytes, cap) == Max(Capped(bytes, cap), 1) <= Max(bytes, 1)
  {
  }

  /** Ending a pump turn moves a worker, or fails the fetch, and touches nothing else the
      release stage or the consumer sees. */
  lemma ResolveQuiet(c: Config, s: State, w: nat, cursor: Cursor, attempt: nat, after: Then)
    requires w < |s.workers| && s.status.Running?
    ensures var s' := Resolve(c, s, w, cursor, attempt, after);
            && s'.delivered == s.delivered && s'.held == s.held && s'.channel == s.channel
            && (s'.status.Running? || s'.status == GiveUp(c, s).status)
  {
  }

  lemma TurnQuiet(c: Config, s: State, w: nat, step: Step)
    requires c.Valid() && Enabled(c, s, step)
    requires step == OpenFail(w) || step == Send(w) || (step.Item? && step.w == w)
    ensures var s' := Apply(c, s, step);
            && s'.delivered == s.delivered && s'.held == s.held
            && (s'.status.Running? || s'.status == GiveUp(c, s).status)
            && |s'.channel| == |s.channel| + if step.Send? then 1 else 0
  {
    hide React, TotalSize, Resolve;
    var p := s.workers[w];
    match step
    case OpenFail(_) => ResolveQuiet(c, s, w, p.cursor, p.attempt, Fail);
    case Item(_, item) =>
      ResolveQuiet(c, s, w, p.cursor, p.attempt, React(p.cursor.end, c.plan.splitBytes, p.acc, item).after);
    case Send(_) =>
      var k := p.cursor.plan;
      var mid := s.(channel := s.channel + [p.outgoing],
                    sent := if k < |s.sent| then s.sent[k := s.sent[k] + [p.outgoing]] else s.sent);
      if p.outgoing.blocks != [] {
        ResolveQuiet(c, mid, w, Advanced(p.cursor, p.outgoing.blocks), p.attempt, p.after);
      }
  }

  // ── The reorder buffer ───────────────────────────────────────────────────

  /** A sub-chunk's bytes as far as the gate can count them. */
  function CappedBytes(c: Config): SubChunk -> nat {
    (sub: SubChunk) => Capped(TotalSize(sub.blocks), c.AheadCap())
  }

  function Bytes(sub: SubChunk): nat {
    TotalSize(sub.blocks)
  }

  lemma {:induction false} WeightBelow(m: Buffer, f: SubChunk -> nat, g: SubChunk -> nat)
    requires forall key | key in m :: f(m[key]) <= g(m[key])
    ensures Weight(m, f) <= Weight(m, g)
    decreases |m|
  {
    if m != map[] {
      var x :| x in m;
      WeightRemove(m, x, f);
      WeightRemove(m, x, g);
      assert (m - {x}).Keys == m.Keys - {x};
      WeightBelow(m - {x}, f, g);
    }
  }

  /** Only the next sub-chunk to release can sit in the buffer without a permit: anything
      else there was sent ahead of the floor or waits behind the next one. */
  lemma BufferedHasPermit(s: State, key: (nat, nat))
    requires key in s.pending && key != s.next
    requires ReleaseOk(s.sent, s.arrived, s.floor, s.next, s.plansReleased)
    requires PendingOk(s.sent, s.arrived, s.next, s.stage, s.pending)
    ensures s.pending[key].permit.Some?
    ensures key.0 < |s.sent| && key.1 < |s.sent[key.0]| && s.pending[key] == s.sent[key.0][key.1]
  {
    assert Unreleased(s.next, s.stage, key.0, key.1);
    assert key == (key.0, key.1) && s.next == (s.next.0, s.next.1);
  }

  /** Each such sub-chunk's permit covers its bytes and no more. */
  lemma PermitCovers(c: Config, s: State, key: (nat, nat))
    requires key in s.pending && key != s.next && SentContent(c, s.sent)
    requires ReleaseOk(s.sent, s.arrived, s.floor, s.next, s.plansReleased)
    requires PendingOk(s.sent, s.arrived, s.next, s.stage, s.pending)
    ensures var sub := s.pending[key];
            && sub.permit == Some(Max(CappedBytes(c)(sub), 1)) && Fits(sub.blocks, c.plan.splitBytes)
            && CappedBytes(c)(sub) <= PermitOf(sub) <= Max(TotalSize(sub.blocks), 1)
  {
    hide ReleaseOk, PendingOk, EndsAt, Need, TotalSize, Fits;
    BufferedHasPermit(s, key);
    assert SubContent(c, s.sent[key.0][key.1]);
    NeedCovers(s.pending[key].bytes, c.AheadCap());
  }

  lemma WithoutNext(m: Buffer, next: (nat, nat))
    ensures Weight(m - {next}, PermitOf) <= Weight(m, PermitOf)
  {
    if next in m {
      WeightRemove(m, next, PermitOf);
    } else {
      assert m - {next} == m;
    }
  }

  lemma NextOnlyWhileDraining(s: State)
    requires PendingOk(s.sent, s.arrived, s.next, s.stage, s.pending)
    ensures s.next in s.pending ==> s.stage.Draining?
  {
  }

  /** In every reachable state every buffered sub-chunk but the next to release holds permits
      for its bytes and no more, and their bytes together, each counted up to the cap, fit
      the gate's cap of eight split budgets. The next one is in the buffer only on its way
      out, while the stage drains. */
  lemma BufferBounded(c: Config, steps: seq<Step>)
    requires c.Valid() && Run(c, steps).Some?
    ensures var s := Run(c, steps).value;
            && (forall key | key in s.pending && key != s.next ::
                  s.pending[key].permit == Some(Max(CappedBytes(c)(s.pending[key]), 1)))
            && Weight(s.pending - {s.next}, CappedBytes(c)) <= c.AheadCap() <= Max(8 * c.plan.splitBytes, 1)
            && (s.next in s.pending ==> s.stage.Draining?)
  {
    hide Run, SentsOk, ChannelOk, ClaimsOk, PhasesOk, ReleaseOk, PendingOk, DeliveredOk, LinkOk, QueueOk,
         WorkersContent, SentContent, CappedBytes, Weight, Fits, TotalSize;
    var s := Run(c, steps).value;
    RunKeeps(c, steps);
    RunContent(c, steps);
    NextOnlyWhileDraining(s);
    WithoutNext(s.pending, s.next);
    forall key | key in s.pending && key != s.next
      ensures s.pending[key].permit == Some(Max(CappedBytes(c)(s.pending[key]), 1))
      ensures CappedBytes(c)(s.pending[key]) <= PermitOf(s.pending[key])
    {
      PermitCovers(c, s, key);
    }
    WeightBelow(s.pending - {s.next}, CappedBytes(c), PermitOf);
  }

  /** So the whole buffer is bounded whenever the stage waits, for an arrival or for queue
      budget. */
  lemma WaitingBufferBounded(c: Config, steps: seq<Step>)
    requires c.Valid() && Run(c, steps).Some? && !Run(c, steps).value.stage.Draining?
    ensures var s := Run(c, steps).value;
            && (forall key | key in s.pending :: s.pending[key].permit.Some?)
            && Weight(s.pending, CappedBytes(c)) <= c.AheadCap()
  {
    hide Run, CappedBytes, Weight;
    BufferBounded(c, steps);
    var s := Run(c, steps).value;
    assert s.pending - {s.next} == s.pending;
  }

  /** A sub-chunk within the split budget, of blocks that are, counts in full. */
  lemma CountsInFull(c: Config, sub: SubChunk)
    requires 0 < c.plan.splitBytes <= U32_MAX && Fits(sub.blocks, c.plan.splitBytes)
    requires forall i | 0 <= i < |sub.blocks| :: sub.blocks[i].size <= c.plan.splitBytes
    ensures CappedBytes(c)(sub) == Bytes(sub)
  {
    assert TotalSize(sub.blocks) <= c.plan.splitBytes by {
      if |sub.blocks| == 1 {
        assert sub.blocks[..0] == [] && TotalSize(sub.blocks) == TotalSize([]) + sub.blocks[0].size;
      }
    }
  }

  /** Where no block exceeds the split budget, the bytes buffered ahead never exceed eight
      split budgets, whatever the streams deliver. */
  lemma BufferedBytes(c: Config, steps: seq<Step>)
    requires c.Valid() && Run(c, steps).Some? && 0 < c.plan.splitBytes <= U32_MAX
    requires var s := Run(c, steps).value;
             forall key | key in s.pending :: forall i | 0 <= i < |s.pending[key].blocks| ::
               s.pending[key].blocks[i].size <= c.plan.splitBytes
    ensures var s := Run(c, steps).value; Weight(s.pending - {s.next}, Bytes) <= 8 * c.plan.splitBytes
  {
    hide Run, SentsOk, ChannelOk, ClaimsOk, PhasesOk, ReleaseOk, PendingOk, DeliveredOk, LinkOk, QueueOk, AheadOk,
         WorkersContent, SentContent, CappedBytes, Weight, Fits, TotalSize, Bytes;
    var s := Run(c, steps).value;
    RunKeeps(c, steps);
    RunContent(c, steps);
    BufferBounded(c, steps);
    forall key | key in s.pending && key != s.next
      ensures Bytes(s.pending[key]) <= CappedBytes(c)(s.pending[key])
    {
      PermitCovers(c, s, key);
      CountsInFull(c, s.pending[key]);
    }
    WeightBelow(s.pending - {s.next}, Bytes, CappedBytes(c));
  }

  // ── Admission ────────────────────────────────────────────────────────────

  /** The permits of everything that holds some: in workers' hands, in the channel, in the
      buffer, or in the release stage's hand. */
  ghost function PermitsOut(s: State): nat {
    Sum(WorkerPermits(s.workers)) + ChannelPermits(s.channel) + Weight(s.pending, PermitOf) + StagePermit(s.stage)
  }

  /** A worker ahead of the floor is admitted exactly while its sub-chunk's bytes, up to the
      cap, fit beside everything that holds permits; the floor's worker always is. */
  lemma AdmittedIff(c: Config, steps: seq<Step>, w: nat)
    requires c.Valid() && Run(c, steps).Some?
    requires var s := Run(c, steps).value; s.status.Running? && w < |s.workers| && s.workers[w].Admitting?
    ensures var s := Run(c, steps).value;
            var bytes := TotalSize(s.workers[w].emission.blocks);
            && (Enabled(c, s, Admit(w, true))
                <==> PermitsOut(s) + Max(Capped(bytes, c.AheadCap()), 1) <= Min(c.AheadCap(), MAX_PERMITS))
            && (Enabled(c, s, Admit(w, false)) <==> s.workers[w].cursor.plan <= s.next.0)
  {
    hide Run, SentsOk, ChannelOk, ClaimsOk, PhasesOk, PendingOk, DeliveredOk, LinkOk, QueueOk, Weight, TotalSize;
    RunKeeps(c, steps);
    NeedCovers(TotalSize(Run(c, steps).value.workers[w].emission.blocks), c.AheadCap());
  }

  // ── The queue ────────────────────────────────────────────────────────────

  /** The chunks the consumer holds, each one's bytes counted up to the budget. */
  function HeldBytes(c: Config, held: seq<Queued>): seq<nat> {
    seq(|held|, i requires 0 <= i < |held| => Capped(TotalSize(held[i].blocks), c.QueuePermits()))
  }

  ghost predicate HeldOk(c: Config, held: seq<Queued>) {
    forall i | 0 <= i < |held| :: held[i].permits == Max(Capped(TotalSize(held[i].blocks), c.QueuePermits()), 1)
  }

  lemma StepHeld(c: Config, s: State, step: Step)
    requires c.Valid() && Enabled(c, s, step) && HeldOk(c, s.held)
    ensures HeldOk(c, Apply(c, s, step).held)
  {
    hide React, TotalSize, Resolve, DoItem, DoSend, FetchPlan.ChunkCount;
    if step.OpenFail? || step.Item? || step.Send? {
      TurnQuiet(c, s, step.w, step);
    } else if step.Deliver? {
      NeedCovers(TotalSize(s.stage.inHand.blocks), c.QueuePermits());
    }
  }

  lemma {:induction false} RunHeld(c: Config, steps: seq<Step>)
    requires c.Valid() && Run(c, steps).Some?
    ensures HeldOk(c, Run(c, steps).value.held)
    decreases |steps|
  {
    hide Apply, HeldOk, Enabled;
    if steps == [] {
      NothingHeld(c);
    } else {
      RunHeld(c, steps[..|steps| - 1]);
      StepHeld(c, Run(c, steps[..|steps| - 1]).value, Last(steps));
    }
  }

  lemma NothingHeld(c: Config)
    requires c.Valid()
    ensures HeldOk(c, Init(c).held)
  {
  }

  lemma {:induction false} SumBelow(a: seq<nat>, b: seq<nat>)
    requires |a| == |b| && forall i | 0 <= i < |a| :: a[i] <= b[i]
    ensures Sum(a) <= Sum(b)
  {
    if a != [] {
      SumBelow(a[1..], b[1..]);
    }
  }

  /** In every reachable state the bytes of the chunks the consumer still holds, each counted
      up to the budget, fit the queue's budget, and the next chunk in hand is let in exactly
      while its own fit beside their permits. */
  lemma QueueBounded(c: Config, steps: seq<Step>)
    requires c.Valid() && Run(c, steps).Some?
    ensures var s := Run(c, steps).value;
            && HeldOk(c, s.held)
            && Sum(HeldBytes(c, s.held)) <= Max(c.queueBudget, 1)
            && (s.status.Running? && s.stage.Offering? ==>
                  (Enabled(c, s, Deliver)
                   <==> Sum(QueuePermitsOf(s.held)) + Max(Capped(TotalSize(s.stage.inHand.blocks), c.QueuePermits()), 1)
                        <= Max(c.queueBudget, 1)))
  {
    hide Run, SentsOk, ChannelOk, ClaimsOk, PhasesOk, ReleaseOk, PendingOk, DeliveredOk, LinkOk, AheadOk, TotalSize;
    var s := Run(c, steps).value;
    RunKeeps(c, steps);
    RunHeld(c, steps);
    SumBelow(HeldBytes(c, s.held), QueuePermitsOf(s.held));
    if s.stage.Offering? {
      NeedCovers(TotalSize(s.stage.inHand.blocks), c.QueuePermits());
    }
  }

  // ── The channel ──────────────────────────────────────────────────────────

  /** The channel between the workers and the reorder stage never holds more than one
      sub-chunk per worker. */
  lemma {:induction false} ChannelBounded(c: Config, steps: seq<Step>)
    requires c.Valid() && Run(c, steps).Some?
    ensures |Run(c, steps).value.channel| <= c.plan.WorkerCount()
    decreases |steps|
  {
    hide FetchPlan.WorkerCount;
    if steps != [] {
      var before := steps[..|steps| - 1];
      ChannelBounded(c, before);
      RunKeeps(c, before);
      ChannelStep(c, Run(c, before).value, Last(steps));
    }
  }

  lemma ChannelStep(c: Config, s: State, step: Step)
    requires c.Valid() && Enabled(c, s, step)
    ensures |Apply(c, s, step).channel| <= Max(|s.channel|, |s.workers|)
  {
    hide React, TotalSize, Resolve, DoItem, DoSend, FetchPlan.ChunkCount;
    if step.OpenFail? || step.Item? || step.Send? {
      TurnQuiet(c, s, step.w, step);
    }
  }

  // ── The failure record ───────────────────────────────────────────────────

  /** The lowest block not delivered yet. */
  function FirstMissing(c: Config, s: State): nat {
    if s.delivered == [] then c.plan.start else Last(s.delivered).height + 1
  }

  predicate WorkerStep(step: Step) {
    || step.ConnectFail? || step.OpenFail? || step.Item? || step.Send? || step.ReconnectFail? || step.Panic?
  }

  lemma StepFailure(c: Config, s: State, step: Step)
    requires c.Valid() && Enabled(c, s, step) && Apply(c, s, step).status.Failed?
    requires s.unreleasedFrom == FirstMissing(c, s)
    ensures var s' := Apply(c, s, step);
            var missing := FirstMissing(c, s');
            s'.status == Failed(if WorkerStep(step) && missing <= c.plan.end then Some(missing) else None)
  {
    hide React, TotalSize, Resolve, DoItem, DoSend, FetchPlan.ChunkCount;
    if step.OpenFail? || step.Item? || step.Send? {
      TurnQuiet(c, s, step.w, step);
    }
  }

  /** A fetch that a worker fails records the first block that was not delivered, one past
      the last delivered one or the plan's start, as long as it is in the plan; a fetch that
      the release stage fails records none. */
  lemma FailureRecorded(c: Config, steps: seq<Step>)
    requires c.Valid() && Run(c, steps).Some? && Run(c, steps).value.status.Failed?
    ensures steps != []
    ensures var s := Run(c, steps).value;
            var missing := FirstMissing(c, s);
            s.status == Failed(if WorkerStep(Last(steps)) && missing <= c.plan.end then Some(missing) else None)
  {
    hide SentsOk, ChannelOk, ClaimsOk, PhasesOk, ReleaseOk, PendingOk, DeliveredOk, AheadOk, QueueOk, Apply, Enabled;
    StartsRunning(c);
    var before := steps[..|steps| - 1];
    RunKeeps(c, before);
    StepFailure(c, Run(c, before).value, Last(steps));
  }

  lemma StartsRunning(c: Config)
    requires c.Valid()
    ensures Init(c).status.Running?
  {
  }
}
