/** Every step of the fetch protocol keeps its invariant. */
module FetchSteps {
  import opened Prelude
  import opened StreamPump
  import opened ChainContinuity
  import opened FetchProtocol
  import opened FetchInvariant

  lemma ReactIsOk(end: int, split: nat, acc: seq<Block>, item: StreamItem)
    ensures var r := React(end, split, acc, item);
            && (r.emit.Some? ==> r.emit.value.blocks != [] && (r.emit.value.isLast <==> r.after.Complete?))
            && (r.emit.None? ==> !r.after.Complete?)
  {
  }

  /** A worker that is not sending may end its turn anywhere but at the chunk's end. */
  lemma ResolveKeeps(c: Config, s: State, w: nat, cursor: Cursor, attempt: nat, after: Then)
    requires c.Valid() && Inv(c, s) && s.status.Running? && w < |s.workers|
    requires s.workers[w].Active() && !s.workers[w].Sending? && !after.Complete?
    requires cursor.plan == s.workers[w].cursor.plan && cursor.nextSub == s.workers[w].cursor.nextSub
    ensures Inv(c, Resolve(c, s, w, cursor, attempt, after))
  {
    hide SentsOk, ChannelOk, ClaimsOk, PhasesOk, ReleaseOk, PendingOk, DeliveredOk, LinkOk, AheadOk, QueueOk;
    match after
    case Continue(acc) => SwapKeeps(c, s, w, Streaming(cursor, attempt, acc), s.status);
    case Fail =>
      var next := NextAttempt(attempt, cursor.emitted, c.plan.retriesPerChunk);
      if next.None? {
        SwapKeeps(c, s, w, Reconnecting(cursor, 0), GiveUp(c, s).status);
      } else {
        SwapKeeps(c, s, w, Reconnecting(cursor.(emitted := false), next.value), s.status);
      }
  }

  lemma ItemKeeps(c: Config, s: State, w: nat, item: StreamItem)
    requires c.Valid() && Inv(c, s) && s.status.Running? && w < |s.workers| && s.workers[w].Streaming?
    ensures Inv(c, DoItem(c, s, w, item))
  {
    hide SentsOk, ChannelOk, ClaimsOk, PhasesOk, ReleaseOk, PendingOk, DeliveredOk, LinkOk, AheadOk, QueueOk;
    var p := s.workers[w];
    var r := React(p.cursor.end, c.plan.splitBytes, p.acc, item);
    ReactIsOk(p.cursor.end, c.plan.splitBytes, p.acc, item);
    if r.emit.Some? {
      SwapKeeps(c, s, w, Admitting(p.cursor, p.attempt, r.emit.value, r.after), s.status);
    } else {
      ResolveKeeps(c, s, w, p.cursor, p.attempt, r.after);
    }
  }

  lemma AdmitKeeps(c: Config, s: State, w: nat, paid: bool)
    requires c.Valid() && Enabled(c, s, Admit(w, paid)) && Inv(c, s)
    ensures Inv(c, Apply(c, s, Admit(w, paid)))
  {
    hide SentsOk, ChannelOk, ClaimsOk, PhasesOk, ReleaseOk, PendingOk, DeliveredOk, LinkOk, AheadOk, QueueOk;
    var s' := DoAdmit(c, s, w, paid);
    PhaseOfWorker(s.workers, w, s.floor);
    SamePlaceKeepsClaims(s.workers, w, s'.workers[w], s.nextClaim, s.sent, s.owner);
    UpdatePhase(s.workers, w, s'.workers[w], s.floor);
    UpdateAhead(c, s.free, s'.free, s.workers, w, s'.workers[w], s.channel, s.pending, s.stage);
  }

  lemma PhaseOfWorker(ws: seq<Worker>, w: nat, floor: nat)
    requires PhasesOk(ws, floor) && w < |ws|
    ensures PhaseOk(ws[w], floor)
  {
  }

  /** A claim takes the chunk at the shared cursor, which no worker ever had. */
  lemma ClaimNext(ws: seq<Worker>, w: nat, k: nat, end: int, from: nat, sent: seq<seq<SubChunk>>, owner: seq<nat>)
    requires ClaimsOk(ws, k, sent, owner) && w < |ws| && ws[w].Claiming? && k < |sent|
    ensures ClaimsOk(ws[w := Opening(Cursor(k, end, from, 0, false), 1)], k + 1, sent, owner[k := w])
  {
    var ws' := ws[w := Opening(Cursor(k, end, from, 0, false), 1)];
    var owner' := owner[k := w];
    forall id | 0 <= id < |ws'| ensures OwnerOk(ws'[id], id, k + 1, sent, owner') {
      assert OwnerOk(ws[id], id, k, sent, owner);
    }
    forall i | 0 <= i < |sent| && i < k + 1 && !Done(sent[i])
      ensures owner'[i] < |ws'| && WorksOn(ws'[owner'[i]], i)
    {
      assert i < k ==> WorksOn(ws[owner[i]], i);
    }
  }

  lemma ClaimNothing(ws: seq<Worker>, w: nat, k: nat, sent: seq<seq<SubChunk>>, owner: seq<nat>)
    requires ClaimsOk(ws, k, sent, owner) && w < |ws| && ws[w].Claiming? && k >= |sent|
    ensures ClaimsOk(ws[w := Exited], k + 1, sent, owner)
  {
    var ws' := ws[w := Exited];
    forall id | 0 <= id < |ws'| ensures OwnerOk(ws'[id], id, k + 1, sent, owner) {
      assert OwnerOk(ws[id], id, k, sent, owner);
    }
  }

  lemma ClaimKeeps(c: Config, s: State, w: nat)
    requires c.Valid() && Enabled(c, s, Claim(w)) && Inv(c, s)
    ensures Inv(c, Apply(c, s, Claim(w)))
  {
    hide SentsOk, ChannelOk, ClaimsOk, PhasesOk, ReleaseOk, PendingOk, DeliveredOk, LinkOk, AheadOk, QueueOk;
    var k := s.nextClaim;
    OwnersAreChunks(s.workers, k, s.sent, s.owner);
    if k < c.plan.ChunkCount() {
      ClaimNext(s.workers, w, k, c.plan.ChunkEnd(k), c.plan.ChunkStart(k), s.sent, s.owner);
    } else {
      ClaimNothing(s.workers, w, k, s.sent, s.owner);
    }
    var after := DoClaim(c, s, w).workers[w];
    UpdatePhase(s.workers, w, after, s.floor);
    UpdateAhead(c, s.free, s.free, s.workers, w, after, s.channel, s.pending, s.stage);
  }

  lemma OwnersAreChunks(ws: seq<Worker>, nextClaim: nat, sent: seq<seq<SubChunk>>, owner: seq<nat>)
    requires ClaimsOk(ws, nextClaim, sent, owner)
    ensures |owner| == |sent|
  {
  }

  // ── Send ─────────────────────────────────────────────────────────────────

  /** The state right after the channel took the sub-chunk, the worker at the start of
      whatever comes next. */
  function AfterSend(s: State, w: nat): State
    requires w < |s.workers| && s.workers[w].Sending? && s.workers[w].outgoing.blocks != []
    requires s.workers[w].cursor.plan < |s.sent|
  {
    var p := s.workers[w];
    var k := p.cursor.plan;
    s.(channel := s.channel + [p.outgoing],
       sent := s.sent[k := s.sent[k] + [p.outgoing]],
       workers := s.workers[w := if p.after.Complete? then Claiming
                                 else Opening(Advanced(p.cursor, p.outgoing.blocks), p.attempt)])
  }

  /** What the sending worker knows of its plan chunk. */
  ghost predicate SendReady(s: State, w: nat) {
    && w < |s.workers| && s.workers[w].Sending?
    && s.workers[w].outgoing.blocks != [] && s.workers[w].cursor.plan < |s.sent|
    && OwnerOk(s.workers[w], w, s.nextClaim, s.sent, s.owner)
    && PhaseOk(s.workers[w], s.floor)
  }

  lemma SendIsReady(c: Config, s: State, w: nat)
    requires c.Valid() && w < |s.workers| && s.workers[w].Sending?
    requires ClaimsOk(s.workers, s.nextClaim, s.sent, s.owner) && PhasesOk(s.workers, s.floor)
    ensures SendReady(s, w)
  {
  }

  lemma SendKeepsSent(s: State, w: nat)
    requires SendReady(s, w) && SentsOk(s.sent) && PhasesOk(s.workers, s.floor)
    ensures var s' := AfterSend(s, w); SentsOk(s'.sent) && PhasesOk(s'.workers, s'.floor)
  {
    var s' := AfterSend(s, w);
    var p := s.workers[w];
    var k := p.cursor.plan;
    assert SentOk(s.sent[k], k);
    assert SentOk(s'.sent[k], k) by {
      assert !Done(s.sent[k]);
      assert s.sent[k] != [] ==> s.sent[k][|s.sent[k]| - 1] == Last(s.sent[k]);
    }
  }

  lemma SendKeepsClaims(s: State, w: nat)
    requires SendReady(s, w) && ClaimsOk(s.workers, s.nextClaim, s.sent, s.owner)
    ensures var s' := AfterSend(s, w); ClaimsOk(s'.workers, s'.nextClaim, s'.sent, s'.owner)
  {
    var s' := AfterSend(s, w);
    var p := s.workers[w];
    var k := p.cursor.plan;
    assert Last(s'.sent[k]) == p.outgoing;
    assert Done(s'.sent[k]) <==> p.after.Complete?;
    forall id | 0 <= id < |s'.workers|
      ensures OwnerOk(s'.workers[id], id, s'.nextClaim, s'.sent, s'.owner)
    {
      assert OwnerOk(s.workers[id], id, s.nextClaim, s.sent, s.owner);
    }
    forall i | 0 <= i < |s'.sent| && i < s'.nextClaim && !Done(s'.sent[i])
      ensures s'.owner[i] < |s'.workers| && WorksOn(s'.workers[s'.owner[i]], i)
    {
      assert WorksOn(s.workers[s.owner[i]], i);
    }
  }

  lemma SendKeepsChannel(s: State, w: nat)
    requires SendReady(s, w) && ChannelOk(s.sent, s.arrived, s.channel)
    ensures var s' := AfterSend(s, w); ChannelOk(s'.sent, s'.arrived, s'.channel)
  {
    var s' := AfterSend(s, w);
    forall k | 0 <= k < |s'.sent|
      ensures s'.arrived[k] <= |s'.sent[k]| && Of(s'.channel, k) == s'.sent[k][s'.arrived[k]..]
    {
      OfSnoc(s.channel, s.workers[w].outgoing, k);
    }
  }

  lemma SendKeepsAhead(c: Config, s: State, w: nat)
    requires SendReady(s, w) && AheadOk(c, s.free, s.workers, s.channel, s.pending, s.stage)
    ensures var s' := AfterSend(s, w); AheadOk(c, s'.free, s'.workers, s'.channel, s'.pending, s'.stage)
  {
    ChannelPermitsSnoc(s.channel, s.workers[w].outgoing);
    WorkerPermitsUpdate(s.workers, w, AfterSend(s, w).workers[w]);
  }

  /** Sending never touches the released prefix. */
  lemma {:induction false} ChunksBeforeSent(sent: seq<seq<SubChunk>>, sent': seq<seq<SubChunk>>, f: nat)
    requires f <= |sent| == |sent'| && forall i | 0 <= i < f :: sent'[i] == sent[i]
    ensures ChunksBefore(sent', f) == ChunksBefore(sent, f)
  {
    if f > 0 {
      ChunksBeforeSent(sent, sent', f - 1);
    }
  }

  lemma ReleasedSent(sent: seq<seq<SubChunk>>, k: nat, sub: SubChunk, f: nat, j: nat)
    requires k < |sent| && f <= |sent| && (f < |sent| ==> j <= |sent[f]|)
    requires k >= f
    ensures var sent' := sent[k := sent[k] + [sub]];
            Released(sent', f, j) == Released(sent, f, j)
  {
    var sent' := sent[k := sent[k] + [sub]];
    ChunksBeforeSent(sent, sent', f);
    if f < |sent| {
      assert sent'[f][..j] == sent[f][..j];
    }
  }

  lemma SendKeepsRelease(s: State, w: nat)
    requires SendReady(s, w)
    requires ReleaseOk(s.sent, s.arrived, s.floor, s.next, s.plansReleased)
    requires ChannelOk(s.sent, s.arrived, s.channel)
    ensures var s' := AfterSend(s, w); ReleaseOk(s'.sent, s'.arrived, s'.floor, s'.next, s'.plansReleased)
    ensures s.workers[w].cursor.plan >= s.floor == s.next.0
  {
    var s' := AfterSend(s, w);
    var k := s.workers[w].cursor.plan;
    assert k >= s.floor;
    forall i, j | s'.floor < i < |s'.sent| && 0 <= j < |s'.sent[i]|
      ensures s'.sent[i][j].permit.Some?
    {
      assert i != k || j < |s.sent[k]| || s'.sent[i][j] == s.workers[w].outgoing;
    }
  }

  lemma SendKeepsPending(s: State, w: nat)
    requires SendReady(s, w)
    requires PendingOk(s.sent, s.arrived, s.next, s.stage, s.pending)
    ensures var s' := AfterSend(s, w); PendingOk(s'.sent, s'.arrived, s'.next, s'.stage, s'.pending)
  {
    var s' := AfterSend(s, w);
    assert forall i | 0 <= i < |s.sent| :: s.sent[i] <= s'.sent[i];
  }

  lemma AfterSendKeeps(c: Config, s: State, w: nat)
    requires c.Valid() && SendReady(s, w) && Inv(c, s) && s.status.Running?
    ensures Inv(c, AfterSend(s, w))
  {
    hide SentsOk, ChannelOk, ClaimsOk, PhasesOk, ReleaseOk, PendingOk, DeliveredOk, LinkOk, AheadOk, QueueOk;
    SendKeepsSent(s, w);
    SendKeepsClaims(s, w);
    SendKeepsChannel(s, w);
    SendKeepsAhead(c, s, w);
    SendKeepsRelease(s, w);
    SendKeepsPending(s, w);
    SendKeepsDelivered(s, w);
  }

  lemma SendKeepsDelivered(s: State, w: nat)
    requires SendReady(s, w) && DeliveredOk(s.sent, s.next, s.delivered)
    requires s.workers[w].cursor.plan >= s.next.0
    ensures DeliveredOk(AfterSend(s, w).sent, s.next, s.delivered)
  {
    ReleasedSent(s.sent, s.workers[w].cursor.plan, s.workers[w].outgoing, s.next.0, s.next.1);
  }

  lemma SendKeeps(c: Config, s: State, w: nat)
    requires c.Valid() && Enabled(c, s, Send(w)) && Inv(c, s)
    ensures Inv(c, Apply(c, s, Send(w)))
  {
    hide SentsOk, ChannelOk, ClaimsOk, PhasesOk, ReleaseOk, PendingOk, DeliveredOk, LinkOk, AheadOk, QueueOk;
    var p := s.workers[w];
    SendIsReady(c, s, w);
    AfterSendKeeps(c, s, w);
    var mid := AfterSend(s, w);
    if p.after.Complete? {
      assert DoSend(c, s, w) == mid;
    } else {
      var cursor := Advanced(p.cursor, p.outgoing.blocks);
      ResolveKeeps(c, mid, w, cursor, p.attempt, p.after);
      ResolveOverwrites(c, s, mid, w, cursor, p.attempt, p.after);
    }
  }

  lemma ResolveOverwrites(c: Config, s: State, mid: State, w: nat, cursor: Cursor, attempt: nat, after: Then)
    requires w < |s.workers| && s.workers[w].Sending? && s.workers[w].cursor.plan < |s.sent|
    requires s.workers[w].outgoing.blocks != []
    requires mid == AfterSend(s, w)
    requires cursor == Advanced(s.workers[w].cursor, s.workers[w].outgoing.blocks)
    requires attempt == s.workers[w].attempt && after == s.workers[w].after
    ensures DoSend(c, s, w) == Resolve(c, mid, w, cursor, attempt, after)
  {
    var s' := DoSend(c, s, w);
    var r := Resolve(c, mid, w, cursor, attempt, after);
    assert s'.workers == r.workers;
  }

  // ── The reorder stage ────────────────────────────────────────────────────

  /** The first sub-chunk in the channel is the next one of its plan chunk. */
  lemma ArrivalIsNext(s: State)
    requires ChannelOk(s.sent, s.arrived, s.channel) && s.channel != []
    ensures var sub := s.channel[0]; var k := sub.plan;
            && k < |s.sent| == |s.arrived| && s.arrived[k] < |s.sent[k]| && s.sent[k][s.arrived[k]] == sub
            && ChannelOk(s.sent, s.arrived[k := s.arrived[k] + 1], s.channel[1..])
  {
    var sub := s.channel[0];
    var k := sub.plan;
    assert Of(s.channel, k) == [sub] + Of(s.channel[1..], k);
    assert Of(s.channel, k)[0] == sub;
    forall i | 0 <= i < |s.sent|
      ensures Of(s.channel[1..], i) == s.sent[i][s.arrived[k := s.arrived[k] + 1][i]..]
    {
      if i == k {
        assert Of(s.channel[1..], k) == Of(s.channel, k)[1..];
      }
    }
  }

  lemma ArriveKeepsPending(s: State, sub: SubChunk, k: nat, s': State)
    requires |s.arrived| == |s.sent| && k < |s.sent| && s.arrived[k] < |s.sent[k]|
    requires sub == s.sent[k][s.arrived[k]]
    requires s.stage.Receiving?
    requires ReleaseOk(s.sent, s.arrived, s.floor, s.next, s.plansReleased)
    requires PendingOk(s.sent, s.arrived, s.next, s.stage, s.pending)
    requires s' == s.(stage := Draining, pending := s.pending[(k, s.arrived[k]) := sub],
                      arrived := s.arrived[k := s.arrived[k] + 1])
    ensures (k, s.arrived[k]) !in s.pending
    ensures ReleaseOk(s'.sent, s'.arrived, s'.floor, s'.next, s'.plansReleased)
    ensures PendingOk(s'.sent, s'.arrived, s'.next, s'.stage, s'.pending)
  {
    forall i: nat, j: nat | i < |s'.sent| && j < s'.arrived[i] && Unreleased(s'.next, s'.stage, i, j)
      ensures (i, j) in s'.pending
    {
      if !(i == k && j == s.arrived[k]) {
        assert Unreleased(s.next, s.stage, i, j);
      }
    }
  }

  lemma ArriveKeepsAhead(c: Config, s: State, k: nat, sub: SubChunk)
    requires AheadOk(c, s.free, s.workers, s.channel, s.pending, s.stage) && s.stage.Receiving?
    requires s.channel != [] && sub == s.channel[0] && (k, sub.sub) !in s.pending
    ensures AheadOk(c, s.free, s.workers, s.channel[1..], s.pending[(k, sub.sub) := sub], Draining)
  {
    WeightInsert(s.pending, (k, sub.sub), sub, PermitOf);
  }

  lemma SubIndex(sent: seq<seq<SubChunk>>, k: nat, j: nat)
    requires SentsOk(sent) && k < |sent| && j < |sent[k]|
    ensures sent[k][j].sub == j
  {
    assert SentOk(sent[k], k);
  }

  lemma ArriveKeeps(c: Config, s: State)
    requires c.Valid() && Enabled(c, s, Arrive) && Inv(c, s)
    ensures Inv(c, Apply(c, s, Arrive))
  {
    hide SentsOk, ChannelOk, ClaimsOk, PhasesOk, ReleaseOk, PendingOk, DeliveredOk, LinkOk, AheadOk, QueueOk;
    var sub := s.channel[0];
    var k := sub.plan;
    ArrivalIsNext(s);
    SubIndex(s.sent, k, s.arrived[k]);
    var mid := s.(stage := Draining, pending := s.pending[(k, sub.sub) := sub],
                  arrived := s.arrived[k := s.arrived[k] + 1]);
    ArriveKeepsPending(s, sub, k, mid);
    ArriveKeepsAhead(c, s, k, sub);
    assert LinkOk(c.plan.start, Draining, s.delivered, s.frontier, s.unreleasedFrom) by {
      LinkIgnoresStage(c.plan.start, s.stage, Draining, s.delivered, s.frontier, s.unreleasedFrom);
    }
  }

  lemma LinkIgnoresStage(start: nat, a: Stage, b: Stage, delivered: seq<Block>, frontier: Frontier, unreleasedFrom: nat)
    requires !a.Offering? && !b.Offering? && LinkOk(start, a, delivered, frontier, unreleasedFrom)
    ensures LinkOk(start, b, delivered, frontier, unreleasedFrom)
  {
  }

  lemma TakeKeepsPending(s: State)
    requires s.stage.Draining? && s.next in s.pending
    requires PendingOk(s.sent, s.arrived, s.next, s.stage, s.pending)
    ensures PendingOk(s.sent, s.arrived, s.next, Offering(s.pending[s.next]), s.pending - {s.next})
  {
    var stage' := Offering(s.pending[s.next]);
    forall i: nat, j: nat | i < |s.sent| && j < s.arrived[i] && Unreleased(s.next, stage', i, j)
      ensures (i, j) in s.pending - {s.next}
    {
      assert Unreleased(s.next, s.stage, i, j);
    }
  }

  lemma TakeKeepsLink(start: nat, s: State, sub: SubChunk)
    requires s.stage.Draining? && LinkOk(start, s.stage, s.delivered, s.frontier, s.unreleasedFrom)
    requires Verify(s.frontier, sub.blocks).Some?
    ensures LinkOk(start, Offering(sub), s.delivered, Verify(s.frontier, sub.blocks).value, s.unreleasedFrom)
  {
    assert s.delivered + [] == s.delivered;
    VerifyExtendsRun(s.delivered, sub.blocks);
  }

  lemma TakeKeepsAhead(c: Config, s: State)
    requires AheadOk(c, s.free, s.workers, s.channel, s.pending, s.stage)
    requires s.stage.Draining? && s.next in s.pending
    ensures AheadOk(c, s.free, s.workers, s.channel, s.pending - {s.next}, Offering(s.pending[s.next]))
  {
    WeightRemove(s.pending, s.next, PermitOf);
  }

  /** Nothing to release: back to waiting. */
  lemma IdleKeeps(c: Config, s: State)
    requires s.stage.Draining? && s.next !in s.pending
    requires PendingOk(s.sent, s.arrived, s.next, s.stage, s.pending)
    requires AheadOk(c, s.free, s.workers, s.channel, s.pending, s.stage)
    ensures PendingOk(s.sent, s.arrived, s.next, Receiving, s.pending)
    ensures AheadOk(c, s.free, s.workers, s.channel, s.pending, Receiving)
  {
    forall i: nat, j: nat | i < |s.sent| && j < s.arrived[i] && Unreleased(s.next, Receiving, i, j)
      ensures (i, j) in s.pending
    {
      assert Unreleased(s.next, s.stage, i, j);
    }
  }

  lemma DrainKeeps(c: Config, s: State)
    requires c.Valid() && Enabled(c, s, Drain) && Inv(c, s)
    ensures Inv(c, Apply(c, s, Drain))
  {
    hide SentsOk, ChannelOk, ClaimsOk, PhasesOk, ReleaseOk, PendingOk, DeliveredOk, LinkOk, AheadOk, QueueOk;
    if s.next in s.pending {
      var sub := s.pending[s.next];
      if Verify(s.frontier, sub.blocks).Some? {
        TakeKeepsPending(s);
        TakeKeepsLink(c.plan.start, s, sub);
        TakeKeepsAhead(c, s);
      }
    } else {
      IdleKeeps(c, s);
      LinkIgnoresStage(c.plan.start, s.stage, Receiving, s.delivered, s.frontier, s.unreleasedFrom);
    }
  }

  lemma ReleasedStep(sent: seq<seq<SubChunk>>, f: nat, j: nat)
    requires f < |sent| && j < |sent[f]|
    ensures Released(sent, f, j + 1) == Released(sent, f, j) + sent[f][j].blocks
  {
    assert sent[f][..j + 1][..j] == sent[f][..j];
    var head, mid, tail := ChunksBefore(sent, f), BlocksOf(sent[f][..j]), sent[f][j].blocks;
    assert head + (mid + tail) == (head + mid) + tail;
  }

  lemma ReleasedNextChunk(sent: seq<seq<SubChunk>>, f: nat)
    requires f < |sent|
    ensures Released(sent, f, |sent[f]|) == ChunksBefore(sent, f + 1) == Released(sent, f + 1, 0)
  {
    assert sent[f][..|sent[f]|] == sent[f];
    if f + 1 < |sent| {
      assert sent[f + 1][..0] == [];
    }
  }

  /** The release point after the sub-chunk in hand. */
  function NextPoint(next: (nat, nat), stage: Stage): (nat, nat)
    requires stage.Offering?
  {
    if stage.inHand.isLast then (next.0 + 1, 0) else (next.0, next.1 + 1)
  }

  ghost predicate OfferReady(s: State) {
    && s.stage.Offering?
    && SentsOk(s.sent)
    && ReleaseOk(s.sent, s.arrived, s.floor, s.next, s.plansReleased)
    && PendingOk(s.sent, s.arrived, s.next, s.stage, s.pending)
  }

  /** The one in hand is the next of the floor, and it is the last one sent exactly when it
      is marked last. */
  lemma OfferIsNext(s: State)
    requires OfferReady(s)
    ensures var f, j := s.next.0, s.next.1;
            && f < |s.sent| && j < s.arrived[f] <= |s.sent[f]| && s.stage.inHand == s.sent[f][j]
            && s.stage.inHand.blocks != [] && s.stage.inHand.plan == f
            && (s.stage.inHand.isLast ==> j == |s.sent[f]| - 1 && Done(s.sent[f]))
            && (Done(s.sent[f]) && j == |s.sent[f]| - 1 ==> s.stage.inHand.isLast)
  {
    assert SentOk(s.sent[s.next.0], s.next.0);
  }

  lemma DeliverKeepsRelease(s: State)
    requires OfferReady(s)
    ensures var point := NextPoint(s.next, s.stage);
            ReleaseOk(s.sent, s.arrived, point.0, point, point.0)
  {
    OfferIsNext(s);
  }

  lemma DeliverKeepsPending(s: State)
    requires OfferReady(s)
    ensures PendingOk(s.sent, s.arrived, NextPoint(s.next, s.stage), Draining, s.pending)
  {
    OfferIsNext(s);
    forall i: nat, m: nat | i < |s.sent| && m < s.arrived[i] && Unreleased(NextPoint(s.next, s.stage), Draining, i, m)
      ensures (i, m) in s.pending
    {
      assert Unreleased(s.next, s.stage, i, m);
    }
  }

  lemma ReleasedAfter(sent: seq<seq<SubChunk>>, next: (nat, nat), delivered: seq<Block>)
    requires DeliveredOk(sent, next, delivered) && next.0 < |sent| && next.1 < |sent[next.0]|
    ensures DeliveredOk(sent, (next.0, next.1 + 1), delivered + sent[next.0][next.1].blocks)
    ensures next.1 + 1 == |sent[next.0]| ==>
              DeliveredOk(sent, (next.0 + 1, 0), delivered + sent[next.0][next.1].blocks)
  {
    ReleasedStep(sent, next.0, next.1);
    if next.1 + 1 == |sent[next.0]| {
      ReleasedNextChunk(sent, next.0);
    }
  }

  lemma DeliverKeepsDelivered(sent: seq<seq<SubChunk>>, next: (nat, nat), stage: Stage, delivered: seq<Block>)
    requires stage.Offering? && next.0 < |sent| && next.1 < |sent[next.0]|
    requires stage.inHand == sent[next.0][next.1]
    requires stage.inHand.isLast ==> next.1 + 1 == |sent[next.0]|
    requires DeliveredOk(sent, next, delivered)
    ensures DeliveredOk(sent, NextPoint(next, stage), delivered + stage.inHand.blocks)
  {
    hide DeliveredOk;
    ReleasedAfter(sent, next, delivered);
  }

  lemma FloorIsNext(sent: seq<seq<SubChunk>>, arrived: seq<nat>, floor: nat, next: (nat, nat), plansReleased: nat)
    requires ReleaseOk(sent, arrived, floor, next, plansReleased)
    ensures next.0 == floor == plansReleased <= |sent|
  {
  }

  lemma DeliverKeepsLink(start: nat, s: State)
    requires s.stage.Offering? && s.stage.inHand.blocks != []
    requires LinkOk(start, s.stage, s.delivered, s.frontier, s.unreleasedFrom)
    ensures LinkOk(start, Draining, s.delivered + s.stage.inHand.blocks, s.frontier,
                   Last(s.stage.inHand.blocks).height + 1)
  {
    var d := s.delivered + s.stage.inHand.blocks;
    assert d + [] == d && Last(d) == Last(s.stage.inHand.blocks);
  }

  lemma DeliverKeeps(c: Config, s: State)
    requires c.Valid() && Enabled(c, s, Deliver) && Inv(c, s)
    ensures Inv(c, Apply(c, s, Deliver))
  {
    hide SentsOk, ChannelOk, ClaimsOk, PhasesOk, ReleaseOk, PendingOk, DeliveredOk, LinkOk, AheadOk, QueueOk;
    FloorIsNext(s.sent, s.arrived, s.floor, s.next, s.plansReleased);
    OfferIsNext(s);
    DeliverKeepsRelease(s);
    DeliverKeepsPending(s);
    DeliverKeepsDelivered(s.sent, s.next, s.stage, s.delivered);
    DeliverKeepsLink(c.plan.start, s);
    DeliverKeepsBudgets(c, s);
    FloorRises(s.workers, s.floor, NextPoint(s.next, s.stage).0);
  }

  lemma DeliverKeepsBudgets(c: Config, s: State)
    requires s.stage.Offering? && QueueOk(c, s.queueFree, s.held)
    requires AheadOk(c, s.free, s.workers, s.channel, s.pending, s.stage)
    ensures AheadOk(c, s.free + PermitOf(s.stage.inHand), s.workers, s.channel, s.pending, Draining)
    ensures var need := Need(TotalSize(s.stage.inHand.blocks), c.QueuePermits());
            s.queueFree >= need ==> QueueOk(c, s.queueFree - need, s.held + [Queued(s.stage.inHand.blocks, need)])
  {
    var need := Need(TotalSize(s.stage.inHand.blocks), c.QueuePermits());
    var q := Queued(s.stage.inHand.blocks, need);
    assert QueuePermitsOf(s.held + [q]) == QueuePermitsOf(s.held) + [need];
    SumSnoc(QueuePermitsOf(s.held), need);
  }

  lemma FloorRises(ws: seq<Worker>, floor: nat, floor': nat)
    requires PhasesOk(ws, floor) && floor <= floor'
    ensures PhasesOk(ws, floor')
  {
  }

  lemma SumSnoc(xs: seq<nat>, x: nat)
    ensures Sum(xs + [x]) == Sum(xs) + x
  {
    SumAppend(xs, [x]);
  }

  lemma DropKeeps(c: Config, queueFree: nat, held: seq<Queued>, i: nat)
    requires QueueOk(c, queueFree, held) && i < |held|
    ensures QueueOk(c, queueFree + held[i].permits, held[..i] + held[i + 1..])
  {
    var all := QueuePermitsOf(held);
    assert QueuePermitsOf(held[..i] + held[i + 1..]) == all[..i] + all[i + 1..];
    assert all == all[..i] + [all[i]] + all[i + 1..];
    SumAppend(all[..i] + [all[i]], all[i + 1..]);
    SumAppend(all[..i], [all[i]]);
    SumAppend(all[..i], all[i + 1..]);
  }

  // ── Every step, every run ────────────────────────────────────────────────

  lemma WorkerStepKeeps(c: Config, s: State, w: nat, step: Step)
    requires c.Valid() && Enabled(c, s, step) && Inv(c, s)
    requires step == Connect(w) || step == OpenOk(w) || step == OpenFail(w) || step == Reconnect(w)
    ensures Inv(c, Apply(c, s, step))
  {
    hide SentsOk, ChannelOk, ClaimsOk, PhasesOk, ReleaseOk, PendingOk, DeliveredOk, LinkOk, AheadOk, QueueOk;
    match step
    case Connect(_) => SwapKeeps(c, s, w, Claiming, s.status);
    case OpenOk(_) => SwapKeeps(c, s, w, Streaming(s.workers[w].cursor, s.workers[w].attempt, []), s.status);
    case OpenFail(_) => ResolveKeeps(c, s, w, s.workers[w].cursor, s.workers[w].attempt, Fail);
    case Reconnect(_) => SwapKeeps(c, s, w, Opening(s.workers[w].cursor, s.workers[w].attempt), s.status);
  }

  lemma StepKeeps(c: Config, s: State, step: Step)
    requires c.Valid() && Enabled(c, s, step) && Inv(c, s)
    ensures Inv(c, Apply(c, s, step))
  {
    hide SentsOk, ChannelOk, ClaimsOk, PhasesOk, ReleaseOk, PendingOk, DeliveredOk, LinkOk, AheadOk, QueueOk;
    match step
    case Connect(w) => WorkerStepKeeps(c, s, w, step);
    case OpenOk(w) => WorkerStepKeeps(c, s, w, step);
    case OpenFail(w) => WorkerStepKeeps(c, s, w, step);
    case Reconnect(w) => WorkerStepKeeps(c, s, w, step);
    case Claim(w) => ClaimKeeps(c, s, w);
    case Item(w, item) => ItemKeeps(c, s, w, item);
    case Admit(w, paid) => AdmitKeeps(c, s, w, paid);
    case Send(w) => SendKeeps(c, s, w);
    case Arrive => ArriveKeeps(c, s);
    case Drain => DrainKeeps(c, s);
    case Deliver => DeliverKeeps(c, s);
    case ConsumerDrop(i) => DropKeeps(c, s.queueFree, s.held, i);
    case ConnectFail(_) =>
    case ReconnectFail(_) =>
    case Panic(_) =>
    case ReleaseError =>
    case Finish => FloorIsNext(s.sent, s.arrived, s.floor, s.next, s.plansReleased);
  }

  /** Safety over whole runs: whatever the streams deliver and however the steps
      interleave, every reachable state satisfies the invariant. */
  lemma {:induction false} RunKeeps(c: Config, steps: seq<Step>)
    requires c.Valid() && Run(c, steps).Some?
    ensures Inv(c, Run(c, steps).value)
    decreases |steps|
  {
    if steps == [] {
      InitKeeps(c);
    } else {
      RunKeeps(c, steps[..|steps| - 1]);
      StepKeeps(c, Run(c, steps[..|steps| - 1]).value, Last(steps));
    }
  }
}
