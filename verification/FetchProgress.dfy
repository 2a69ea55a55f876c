/** The fetch protocol never gets stuck. */
module FetchProgress {
  import opened Prelude
  import opened FetchPlanning
  import opened StreamPump
  import opened FetchProtocol
  import opened FetchInvariant
  import opened FetchSteps

  /** The steps that carry the fetch forward without help from a plan chunk above the
      floor. Of the streaming workers only the floor's own steps count, and of their
      streams only a block, or the clean end of a chunk whose last block is in. */
  predicate Advances(s: State, step: Step) {
    match step
    case Connect(_) => true
    case Claim(_) => true
    case Send(_) => true
    case Arrive => true
    case Drain => true
    case Deliver => true
    case ConsumerDrop(_) => true
    case Finish => true
    case OpenOk(w) => w < |s.workers| && WorksOn(s.workers[w], s.floor)
    case Item(w, item) =>
      && w < |s.workers| && WorksOn(s.workers[w], s.floor) && s.workers[w].Streaming?
      && (item.Received? || (item.CleanEnd? && EndsAt(s.workers[w].acc, s.workers[w].cursor.end)))
    case Admit(w, _) => w < |s.workers| && WorksOn(s.workers[w], s.floor)
    case Reconnect(w) => w < |s.workers| && WorksOn(s.workers[w], s.floor)
    case _ => false
  }

  /** None of them gives the download up: the fetch runs on, or ends as complete, or the
      stage refuses blocks that do not continue the chain. */
  lemma AdvancesSafely(c: Config, s: State, step: Step)
    requires c.Valid() && Enabled(c, s, step) && Advances(s, step)
    ensures var status := Apply(c, s, step).status;
            status.Failed? ==> step.Drain? && s.next in s.pending && status.gaveUpAt.None?
  {
    hide TotalSize, Need, FetchPlan.ChunkStart, FetchPlan.ChunkEnd, FetchPlan.ChunkCount;
  }

  ghost predicate CanAdvance(c: Config, s: State)
    requires c.Valid()
  {
    exists step :: Enabled(c, s, step) && Advances(s, step)
  }

  lemma Advance(c: Config, s: State, step: Step)
    requires c.Valid() && Enabled(c, s, step) && Advances(s, step)
    ensures CanAdvance(c, s)
  {
  }

  /** A budget smaller than one need is held by somebody. */
  lemma QueueHeld(c: Config, queueFree: nat, held: seq<Queued>, bytes: nat)
    requires QueueOk(c, queueFree, held) && queueFree < Need(bytes, c.QueuePermits())
    ensures held != []
  {
  }

  /** With the channel empty and the buffer drained, a floor chunk that was claimed is
      still being worked on: had its worker sent the last sub-chunk, the floor would have
      moved past it. */
  lemma FloorOwned(s: State)
    requires s.stage.Receiving? && s.channel == [] && s.floor < |s.sent| && s.floor < s.nextClaim
    requires ChannelOk(s.sent, s.arrived, s.channel)
    requires ReleaseOk(s.sent, s.arrived, s.floor, s.next, s.plansReleased)
    requires PendingOk(s.sent, s.arrived, s.next, s.stage, s.pending)
    requires ClaimsOk(s.workers, s.nextClaim, s.sent, s.owner)
    ensures s.owner[s.floor] < |s.workers| && WorksOn(s.workers[s.owner[s.floor]], s.floor)
  {
    var f := s.floor;
    assert Of(s.channel, f) == [];
    assert s.arrived[f] == |s.sent[f]| by {
      assert |s.sent[f][s.arrived[f]..]| == 0;
    }
    assert Unreleased(s.next, s.stage, f, s.next.1);
    assert (f, s.next.1) == s.next;
  }

  /** Nothing active is left below or at an unclaimed floor. */
  lemma FloorUnclaimed(s: State, w: nat)
    requires w < |s.workers| && (s.floor >= s.nextClaim || s.floor == |s.sent|)
    requires ReleaseOk(s.sent, s.arrived, s.floor, s.next, s.plansReleased)
    requires ClaimsOk(s.workers, s.nextClaim, s.sent, s.owner)
    ensures !s.workers[w].Active()
    ensures s.floor < |s.sent| ==> !s.workers[w].Exited?
  {
    assert OwnerOk(s.workers[w], w, s.nextClaim, s.sent, s.owner);
  }

  lemma WorkerAdvances(c: Config, s: State, w: nat)
    requires c.Valid() && s.status.Running? && w < |s.workers| && !s.workers[w].Exited?
    requires !s.workers[w].Active() || WorksOn(s.workers[w], s.floor)
    requires |s.channel| < |s.workers|
    ensures CanAdvance(c, s)
  {
    match s.workers[w]
    case Connecting => Advance(c, s, Connect(w));
    case Claiming => Advance(c, s, Claim(w));
    case Opening(_, _) => Advance(c, s, OpenOk(w));
    case Streaming(cursor, _, acc) =>
      if EndsAt(acc, cursor.end) {
        Advance(c, s, Item(w, CleanEnd));
      } else {
        Advance(c, s, Item(w, Received(Block(cursor.resumeFrom + |acc|, [], [], 0), false)));
      }
    case Admitting(_, _, _, _) => Advance(c, s, Admit(w, false));
    case Sending(_, _, _, _) => Advance(c, s, Send(w));
    case Reconnecting(_, _) => Advance(c, s, Reconnect(w));
  }

  lemma StageAdvances(c: Config, s: State)
    requires c.Valid() && s.status.Running? && QueueOk(c, s.queueFree, s.held)
    requires !s.stage.Receiving? || s.channel != []
    ensures CanAdvance(c, s)
  {
    match s.stage
    case Receiving => Advance(c, s, Arrive);
    case Draining => Advance(c, s, Drain);
    case Offering(sub) =>
      if s.queueFree >= Need(TotalSize(sub.blocks), c.QueuePermits()) {
        Advance(c, s, Deliver);
      } else {
        QueueHeld(c, s.queueFree, s.held, TotalSize(sub.blocks));
        Advance(c, s, ConsumerDrop(0));
      }
  }

  lemma ReceivingAdvances(c: Config, s: State)
    requires c.Valid() && s.status.Running? && s.stage.Receiving? && s.channel == []
    requires |s.workers| > 0
    requires ChannelOk(s.sent, s.arrived, s.channel)
    requires ReleaseOk(s.sent, s.arrived, s.floor, s.next, s.plansReleased)
    requires PendingOk(s.sent, s.arrived, s.next, s.stage, s.pending)
    requires ClaimsOk(s.workers, s.nextClaim, s.sent, s.owner)
    ensures CanAdvance(c, s)
  {
    FloorIsNext(s.sent, s.arrived, s.floor, s.next, s.plansReleased);
    if s.floor < |s.sent| && s.floor < s.nextClaim {
      FloorOwned(s);
      WorkerAdvances(c, s, s.owner[s.floor]);
    } else if w: nat :| w < |s.workers| && !s.workers[w].Exited? {
      FloorUnclaimed(s, w);
      WorkerAdvances(c, s, w);
    } else {
      Advance(c, s, Finish);
    }
  }

  /** Deadlock freedom: in every reachable state of a fetch that is still running, some
      worker, the release stage or the consumer can take a step that gives nothing up, and
      it needs no step of a stream above the floor. */
  lemma NeverStuck(c: Config, steps: seq<Step>)
    requires c.Valid() && Run(c, steps).Some? && Run(c, steps).value.status.Running?
    ensures CanAdvance(c, Run(c, steps).value)
  {
    hide Run, SentsOk, ChannelOk, ClaimsOk, PhasesOk, ReleaseOk, PendingOk, DeliveredOk, LinkOk, AheadOk, QueueOk,
         CanAdvance;
    RunKeeps(c, steps);
    var s := Run(c, steps).value;
    if !s.stage.Receiving? || s.channel != [] {
      StageAdvances(c, s);
    } else {
      ChunkCountBounds(c.plan, 0);
      ReceivingAdvances(c, s);
    }
  }

  /** Once every worker has exited and the stage has drained, no plan chunk is left. */
  lemma NothingLeft(s: State)
    requires s.stage.Receiving? && s.channel == [] && |s.workers| > 0
    requires forall w | 0 <= w < |s.workers| :: s.workers[w].Exited?
    requires ChannelOk(s.sent, s.arrived, s.channel)
    requires ReleaseOk(s.sent, s.arrived, s.floor, s.next, s.plansReleased)
    requires PendingOk(s.sent, s.arrived, s.next, s.stage, s.pending)
    requires ClaimsOk(s.workers, s.nextClaim, s.sent, s.owner)
    ensures s.floor == |s.sent|
  {
    hide ChannelOk, PendingOk, ReleaseOk;
    FloorIsNext(s.sent, s.arrived, s.floor, s.next, s.plansReleased);
    if s.floor < |s.sent| && s.floor < s.nextClaim {
      FloorOwned(s);
      NoneWorks(s, s.owner[s.floor], s.floor);
    } else if s.floor < |s.sent| {
      FloorUnclaimed(s, 0);
    }
  }

  lemma NoneWorks(s: State, w: nat, k: nat)
    requires w < |s.workers| && forall v | 0 <= v < |s.workers| :: s.workers[v].Exited?
    ensures !WorksOn(s.workers[w], k)
  {
  }

  /** Only finishing short of the plan's chunk count makes a fetch incomplete. */
  lemma IncompleteStep(c: Config, s: State, step: Step)
    requires c.Valid() && Enabled(c, s, step)
    requires step.Finish? ==> s.plansReleased == c.plan.ChunkCount()
    ensures !Apply(c, s, step).status.Incomplete?
  {
    hide React, Need, TotalSize, FetchPlan.ChunkStart, FetchPlan.ChunkEnd, FetchPlan.ChunkCount;
  }

  /** A fetch that finishes without a failure has released every plan chunk: the final
      completeness check never finds one missing, whatever the streams delivered. */
  lemma NeverIncomplete(c: Config, steps: seq<Step>)
    requires c.Valid() && Run(c, steps).Some?
    ensures !Run(c, steps).value.status.Incomplete?
  {
    hide Apply, SentsOk, ChannelOk, ClaimsOk, PhasesOk, ReleaseOk, PendingOk, DeliveredOk, LinkOk, AheadOk, QueueOk;
    if steps != [] {
      var before := steps[..|steps| - 1];
      var s := Run(c, before).value;
      RunKeeps(c, before);
      if Last(steps).Finish? {
        ChunkCountBounds(c.plan, 0);
        NothingLeft(s);
        ReleasedCount(s);
      }
      IncompleteStep(c, s, Last(steps));
    }
  }

  lemma ReleasedCount(s: State)
    requires ReleaseOk(s.sent, s.arrived, s.floor, s.next, s.plansReleased)
    ensures s.plansReleased == s.floor
  {
  }
}
