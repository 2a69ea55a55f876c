/** Exactness of the ordered fetch when every stream is well behaved: it yields
    consecutive heights from where it was opened, never past the plan chunk's end, and may
    end, break or go silent at any point. */
module FetchWellBehaved {
  import opened Prelude
  import opened FetchPlanning
  import opened StreamPump
  import opened ChainContinuity
  import opened FetchProtocol
  import opened FetchInvariant
  import opened FetchSteps
  import opened FetchContent
  import opened FetchDelivery

  /** The block a stream yields is the next one of its request. */
  ghost predicate PoliteStep(s: State, step: Step) {
    step.Item? && step.item.Received? && step.w < |s.workers| && s.workers[step.w].Streaming? ==>
      var p := s.workers[step.w];
      step.item.block.height == p.cursor.resumeFrom + |p.acc| <= p.cursor.end
  }

  ghost predicate PoliteRun(c: Config, steps: seq<Step>)
    requires c.Valid()
  {
    steps != [] ==>
      var before := steps[..|steps| - 1];
      PoliteRun(c, before) && (Run(c, before).Some? ==> PoliteStep(Run(c, before).value, Last(steps)))
  }

  /** What a plan chunk's worker has sent: its first blocks, exactly, and all of them once
      it is done. */
  ghost predicate ChunkTiled(c: Config, subs: seq<SubChunk>, k: nat) {
    var at := c.plan.ChunkStart(k) + |BlocksOf(subs)|;
    && Consecutive(BlocksOf(subs), c.plan.ChunkStart(k))
    && (if Done(subs) then at == c.plan.ChunkEnd(k) + 1 else at <= c.plan.ChunkEnd(k))
    && (forall j | 0 <= j < |subs| :: WithinSplit(subs[j], c.plan.splitBytes))
  }

  ghost predicate Tiled(c: Config, sent: seq<seq<SubChunk>>) {
    forall k | 0 <= k < |sent| :: ChunkTiled(c, sent[k], k)
  }

  /** What an emission must be to continue its plan chunk. */
  ghost predicate NextRun(c: Cursor, e: Emission, split: nat) {
    && e.blocks != [] && Consecutive(e.blocks, c.resumeFrom)
    && (if e.isLast then EndsAt(e.blocks, c.end) else Last(e.blocks).height < c.end)
    && (TotalSize(e.blocks) <= split || |e.blocks| == 1)
  }

  ghost predicate AfterReady(c: Cursor, blocks: seq<Block>, after: Then, split: nat)
    requires blocks != []
  {
    after.Continue? ==> AccReady(Advanced(c, blocks), split, after.acc)
  }

  ghost predicate PolitePhase(w: Worker, split: nat) {
    && (w.Active() ==> w.cursor.resumeFrom <= w.cursor.end)
    && match w
       case Streaming(cursor, _, acc) => AccReady(cursor, split, acc)
       case Admitting(cursor, _, e, after) =>
         NextRun(cursor, e, split) && AfterReady(cursor, e.blocks, after, split)
       case Sending(cursor, _, sub, after) =>
         && NextRun(cursor, Emission(sub.blocks, sub.isLast), split)
         && AfterReady(cursor, sub.blocks, after, split)
       case _ => true
  }

  ghost predicate Polite(c: Config, ws: seq<Worker>, sent: seq<seq<SubChunk>>) {
    forall id | 0 <= id < |ws| ::
      && PolitePhase(ws[id], c.plan.splitBytes)
      && (ws[id].Active() ==>
            && ws[id].cursor.plan < |sent|
            && ws[id].cursor.resumeFrom == c.plan.ChunkStart(ws[id].cursor.plan) + |BlocksOf(sent[ws[id].cursor.plan])|)
  }

  ghost predicate PoliteInv(c: Config, s: State) {
    Tiled(c, s.sent) && Polite(c, s.workers, s.sent)
  }

  lemma PoliteAt(c: Config, ws: seq<Worker>, sent: seq<seq<SubChunk>>, w: nat)
    requires Polite(c, ws, sent) && w < |ws|
    ensures PolitePhase(ws[w], c.plan.splitBytes)
    ensures ws[w].Active() ==>
              && ws[w].cursor.plan < |sent|
              && ws[w].cursor.resumeFrom == c.plan.ChunkStart(ws[w].cursor.plan) + |BlocksOf(sent[ws[w].cursor.plan])|
  {
  }

  /** A worker that stays at the same position of the same plan chunk. */
  lemma PoliteUpdate(c: Config, ws: seq<Worker>, sent: seq<seq<SubChunk>>, w: nat, after: Worker)
    requires Polite(c, ws, sent) && w < |ws| && PolitePhase(after, c.plan.splitBytes)
    requires after.Active() ==>
               && after.cursor.plan < |sent|
               && after.cursor.resumeFrom == c.plan.ChunkStart(after.cursor.plan) + |BlocksOf(sent[after.cursor.plan])|
    ensures Polite(c, ws[w := after], sent)
  {
  }

  lemma ResolvePolite(c: Config, s: State, w: nat, cursor: Cursor, attempt: nat, after: Then)
    requires w < |s.workers| && Polite(c, s.workers, s.sent)
    requires !after.Complete? ==>
               && cursor.plan < |s.sent| && cursor.resumeFrom <= cursor.end
               && cursor.resumeFrom == c.plan.ChunkStart(cursor.plan) + |BlocksOf(s.sent[cursor.plan])|
    requires after.Continue? ==> AccReady(cursor, c.plan.splitBytes, after.acc)
    ensures Polite(c, Resolve(c, s, w, cursor, attempt, after).workers, s.sent)
  {
    hide Polite, AccReady;
    PoliteUpdate(c, s.workers, s.sent, w, Resolve(c, s, w, cursor, attempt, after).workers[w]);
  }

  lemma ItemPolite(c: Config, s: State, w: nat, item: StreamItem)
    requires w < |s.workers| && s.workers[w].Streaming? && Polite(c, s.workers, s.sent)
    requires PoliteStep(s, Item(w, item))
    ensures Polite(c, DoItem(c, s, w, item).workers, s.sent)
  {
    hide Polite, AccReady, React, Consecutive;
    var p := s.workers[w];
    var split := c.plan.splitBytes;
    var r := React(p.cursor.end, split, p.acc, item);
    PoliteAt(c, s.workers, s.sent, w);
    TurnEmits(p.cursor, split, p.acc, item);
    if r.after.Continue? {
      TurnKeeps(p.cursor, split, p.acc, item);
    }
    if r.emit.Some? {
      PoliteUpdate(c, s.workers, s.sent, w, Admitting(p.cursor, p.attempt, r.emit.value, r.after));
    } else {
      ResolvePolite(c, s, w, p.cursor, p.attempt, r.after);
    }
  }

  lemma AdmitPolite(c: Config, s: State, w: nat, paid: bool)
    requires w < |s.workers| && s.workers[w].Admitting? && Polite(c, s.workers, s.sent)
    ensures Polite(c, DoAdmit(c, s, w, paid).workers, s.sent)
  {
    hide Polite, AccReady, Consecutive;
    PoliteAt(c, s.workers, s.sent, w);
    PoliteUpdate(c, s.workers, s.sent, w, DoAdmit(c, s, w, paid).workers[w]);
  }

  // ── Send ─────────────────────────────────────────────────────────────────

  lemma TiledSnoc(c: Config, subs: seq<SubChunk>, k: nat, cursor: Cursor, sub: SubChunk)
    requires ChunkTiled(c, subs, k) && !Done(subs)
    requires cursor.end == c.plan.ChunkEnd(k)
    requires cursor.resumeFrom == c.plan.ChunkStart(k) + |BlocksOf(subs)|
    requires NextRun(cursor, Emission(sub.blocks, sub.isLast), c.plan.splitBytes)
    requires sub.bytes == TotalSize(sub.blocks)
    ensures ChunkTiled(c, subs + [sub], k)
    ensures |BlocksOf(subs + [sub])| == |BlocksOf(subs)| + |sub.blocks|
    ensures Last(sub.blocks).height + 1 == c.plan.ChunkStart(k) + |BlocksOf(subs + [sub])|
  {
    assert (subs + [sub])[..|subs|] == subs;
    assert BlocksOf(subs + [sub]) == BlocksOf(subs) + sub.blocks;
    hide BlocksOf, TotalSize;
  }

  /** Only the sender is on its plan chunk, so nobody else's position moves. */
  lemma OthersStay(
    c: Config, ws: seq<Worker>, sent: seq<seq<SubChunk>>, w: nat, k: nat, subs: seq<SubChunk>, after: Worker)
    requires Polite(c, ws, sent) && w < |ws| && k < |sent|
    requires forall id | 0 <= id < |ws| && id != w :: !WorksOn(ws[id], k)
    requires PolitePhase(after, c.plan.splitBytes)
    requires after.Active() ==>
               after.cursor.plan == k && after.cursor.resumeFrom == c.plan.ChunkStart(k) + |BlocksOf(subs)|
    ensures Polite(c, ws[w := after], sent[k := subs])
  {
    hide BlocksOf, PolitePhase;
  }

  lemma SoleWorker(ws: seq<Worker>, w: nat, nextClaim: nat, sent: seq<seq<SubChunk>>, owner: seq<nat>)
    requires ClaimsOk(ws, nextClaim, sent, owner) && w < |ws| && ws[w].Active()
    ensures ws[w].cursor.plan < |sent| && !Done(sent[ws[w].cursor.plan])
    ensures forall id | 0 <= id < |ws| && id != w :: !WorksOn(ws[id], ws[w].cursor.plan)
  {
    assert OwnerOk(ws[w], w, nextClaim, sent, owner);
    forall id | 0 <= id < |ws| && id != w ensures !WorksOn(ws[id], ws[w].cursor.plan) {
      assert OwnerOk(ws[id], id, nextClaim, sent, owner);
    }
  }

  lemma AdvancedReady(c: Config, s: State, w: nat, subs: seq<SubChunk>)
    requires w < |s.workers| && s.workers[w].Sending? && s.workers[w].outgoing.blocks != []
    requires PolitePhase(s.workers[w], c.plan.splitBytes)
    requires s.workers[w].outgoing.isLast <==> s.workers[w].after.Complete?
    requires Last(s.workers[w].outgoing.blocks).height + 1
        == c.plan.ChunkStart(s.workers[w].cursor.plan) + |BlocksOf(subs)|
    ensures var p := s.workers[w];
            var cursor := Advanced(p.cursor, p.outgoing.blocks);
            var after := Resolve(c, s, w, cursor, p.attempt, p.after).workers[w];
            && PolitePhase(after, c.plan.splitBytes)
            && (after.Active() ==>
                  && after.cursor.plan == p.cursor.plan
                  && after.cursor.resumeFrom == c.plan.ChunkStart(p.cursor.plan) + |BlocksOf(subs)|)
  {
    hide AccReady, Consecutive, BlocksOf, TotalSize, FetchPlan.ChunkStart;
  }

  lemma TiledUpdate(c: Config, sent: seq<seq<SubChunk>>, k: nat, subs: seq<SubChunk>)
    requires Tiled(c, sent) && k < |sent| && ChunkTiled(c, subs, k)
    ensures Tiled(c, sent[k := subs])
  {
    hide ChunkTiled;
  }

  lemma SendPolite(c: Config, s: State, w: nat)
    requires w < |s.workers| && s.workers[w].Sending? && PoliteInv(c, s)
    requires ClaimsOk(s.workers, s.nextClaim, s.sent, s.owner) && PhasesOk(s.workers, s.floor)
    requires WorkersContent(c, s.workers)
    ensures PoliteInv(c, DoSend(c, s, w))
  {
    var p := s.workers[w];
    var k := p.cursor.plan;
    var subs := s.sent[k] + [p.outgoing];
    PhaseOfWorker(s.workers, w, s.floor);
    SoleWorker(s.workers, w, s.nextClaim, s.sent, s.owner);
    ContentAt(c, s.workers, w);
    PoliteAt(c, s.workers, s.sent, w);
    assert ChunkTiled(c, s.sent[k], k);
    hide Tiled, Polite, ClaimsOk, PhasesOk, WorkersContent, BlocksOf, FetchPlan.ChunkStart, FetchPlan.ChunkEnd;
    TiledSnoc(c, s.sent[k], k, p.cursor, p.outgoing);
    AdvancedReady(c, s, w, subs);
    hide PolitePhase, ChunkTiled, SubContent;
    TiledUpdate(c, s.sent, k, subs);
    var after := Resolve(c, s, w, Advanced(p.cursor, p.outgoing.blocks), p.attempt, p.after).workers[w];
    OthersStay(c, s.workers, s.sent, w, k, subs, after);
    assert DoSend(c, s, w).workers == s.workers[w := after];
  }

  // ── Every step, every run ────────────────────────────────────────────────

  lemma ClaimPolite(c: Config, s: State, w: nat)
    requires c.Valid() && Enabled(c, s, Claim(w)) && Inv(c, s) && PoliteInv(c, s)
    ensures PoliteInv(c, DoClaim(c, s, w))
  {
    var k := s.nextClaim;
    if k < c.plan.ChunkCount() {
      ChunksTile(c.plan, k);
      assert s.sent[k] == [];
    }
    hide Tiled, Polite, Inv, FetchPlan.ChunkStart, FetchPlan.ChunkEnd, FetchPlan.ChunkCount;
    PoliteUpdate(c, s.workers, s.sent, w, DoClaim(c, s, w).workers[w]);
  }

  lemma WorkerStepPolite(c: Config, s: State, w: nat, step: Step)
    requires c.Valid() && Enabled(c, s, step) && PoliteInv(c, s)
    requires step == Connect(w) || step == OpenOk(w) || step == OpenFail(w) || step == Reconnect(w)
    ensures PoliteInv(c, Apply(c, s, step))
  {
    hide Tiled, Polite;
    PoliteAt(c, s.workers, s.sent, w);
    if step.OpenFail? {
      ResolvePolite(c, s, w, s.workers[w].cursor, s.workers[w].attempt, Fail);
    } else {
      PoliteUpdate(c, s.workers, s.sent, w, Apply(c, s, step).workers[w]);
    }
  }

  lemma StepPolite(c: Config, s: State, step: Step)
    requires c.Valid() && Enabled(c, s, step) && Inv(c, s) && Content(c, s) && PoliteInv(c, s)
    requires PoliteStep(s, step)
    ensures PoliteInv(c, Apply(c, s, step))
  {
    hide Tiled, Polite, SentsOk, ChannelOk, ClaimsOk, PhasesOk, ReleaseOk, PendingOk, DeliveredOk, LinkOk,
         AheadOk, QueueOk, WorkersContent, SentContent;
    match step
    case Connect(w) => WorkerStepPolite(c, s, w, step);
    case OpenOk(w) => WorkerStepPolite(c, s, w, step);
    case OpenFail(w) => WorkerStepPolite(c, s, w, step);
    case Reconnect(w) => WorkerStepPolite(c, s, w, step);
    case Claim(w) => ClaimPolite(c, s, w);
    case Item(w, item) => ItemPolite(c, s, w, item);
    case Admit(w, paid) => AdmitPolite(c, s, w, paid);
    case Send(w) => SendPolite(c, s, w);
    case _ =>
  }

  lemma InitPolite(c: Config)
    requires c.Valid()
    ensures PoliteInv(c, Init(c))
  {
    forall k | 0 <= k < |Init(c).sent| ensures ChunkTiled(c, Init(c).sent[k], k) {
      ChunksTile(c.plan, k);
    }
  }

  lemma {:induction false} RunPolite(c: Config, steps: seq<Step>)
    requires c.Valid() && Run(c, steps).Some? && PoliteRun(c, steps)
    ensures PoliteInv(c, Run(c, steps).value)
    decreases |steps|
  {
    hide PoliteInv, Content, Inv;
    if steps == [] {
      InitPolite(c);
    } else {
      var before := steps[..|steps| - 1];
      RunPolite(c, before);
      RunKeeps(c, before);
      RunContent(c, before);
      StepPolite(c, Run(c, before).value, Last(steps));
    }
  }

  // ── What the queue receives ──────────────────────────────────────────────

  lemma ConsecutiveJoin(a: seq<Block>, b: seq<Block>, from: int)
    requires Consecutive(a, from) && Consecutive(b, from + |a|)
    ensures Consecutive(a + b, from)
  {
  }

  lemma ConsecutiveTake(a: seq<Block>, n: nat, from: int)
    requires Consecutive(a, from) && n <= |a|
    ensures Consecutive(a[..n], from)
  {
  }

  lemma {:induction false} BlocksOfPrefix(subs: seq<SubChunk>, j: nat)
    requires j <= |subs|
    ensures BlocksOf(subs[..j]) <= BlocksOf(subs)
    decreases |subs|
  {
    if j < |subs| {
      var front := subs[..|subs| - 1];
      BlocksOfPrefix(front, j);
      assert front[..j] == subs[..j];
    } else {
      assert subs[..j] == subs;
    }
  }

  lemma NoBlocks(from: int)
    ensures Consecutive([], from)
  {
  }

  /** The finished plan chunks below `f` are the plan's blocks up to chunk `f`. */
  lemma {:induction false} ChunksBeforeTiled(c: Config, sent: seq<seq<SubChunk>>, f: nat)
    requires c.Valid() && f <= |sent| == c.plan.ChunkCount() && Tiled(c, sent)
    requires forall k | 0 <= k < f :: Done(sent[k])
    ensures Consecutive(ChunksBefore(sent, f), c.plan.start)
    ensures f < |sent| ==> c.plan.start + |ChunksBefore(sent, f)| == c.plan.ChunkStart(f)
    ensures f == |sent| ==> c.plan.start + |ChunksBefore(sent, f)| == c.plan.end + 1
  {
    hide FetchPlan.ChunkStart, FetchPlan.ChunkEnd, FetchPlan.ChunkCount, BlocksOf, Consecutive, WithinSplit, Done;
    ChunkCountBounds(c.plan, 0);
    if f == 0 {
      NoBlocks(c.plan.start);
      ChunksTile(c.plan, 0);
    } else {
      ChunksBeforeTiled(c, sent, f - 1);
      ChunksTile(c.plan, f - 1);
      assert ChunkTiled(c, sent[f - 1], f - 1);
      ConsecutiveJoin(ChunksBefore(sent, f - 1), BlocksOf(sent[f - 1]), c.plan.start);
    }
  }

  lemma ReleasedTiled(c: Config, sent: seq<seq<SubChunk>>, f: nat, j: nat)
    requires c.Valid() && f < |sent| == c.plan.ChunkCount() && j <= |sent[f]| && Tiled(c, sent)
    requires forall k | 0 <= k < f :: Done(sent[k])
    ensures Consecutive(Released(sent, f, j), c.plan.start)
  {
    hide FetchPlan.ChunkStart, FetchPlan.ChunkEnd, FetchPlan.ChunkCount, BlocksOf, ChunksBefore, Consecutive,
         WithinSplit, Done;
    ChunksBeforeTiled(c, sent, f);
    assert ChunkTiled(c, sent[f], f);
    BlocksOfPrefix(sent[f], j);
    var whole, part := BlocksOf(sent[f]), BlocksOf(sent[f][..j]);
    assert part == whole[..|part|];
    ConsecutiveTake(whole, |part|, c.plan.ChunkStart(f));
    ConsecutiveJoin(ChunksBefore(sent, f), part, c.plan.start);
  }

  /** Under every interleaving of claims, deliveries, errors, retries, admissions and
      arrivals, what the queue has received is the plan's blocks from its start, without gap
      or repeat; the release cursor is the next one; and a fetch that succeeds has delivered
      the whole plan. */
  lemma OrderedExactDelivery(c: Config, steps: seq<Step>)
    requires c.Valid() && Run(c, steps).Some? && PoliteRun(c, steps)
    ensures var s := Run(c, steps).value;
            && Consecutive(s.delivered, c.plan.start)
            && s.unreleasedFrom == c.plan.start + |s.delivered|
            && (s.status.Succeeded? ==> ExactlyPlan(c.plan, s.delivered))
  {
    hide Run, SentsOk, ChannelOk, ClaimsOk, PhasesOk, PendingOk, AheadOk, QueueOk, Polite, Tiled;
    hide FetchPlan.ChunkStart, FetchPlan.ChunkEnd, FetchPlan.ChunkCount, BlocksOf, ChunksBefore, Linked;
    RunKeeps(c, steps);
    RunPolite(c, steps);
    var s := Run(c, steps).value;
    FloorIsNext(s.sent, s.arrived, s.floor, s.next, s.plansReleased);
    if s.floor < |s.sent| {
      ReleasedTiled(c, s.sent, s.floor, s.next.1);
    } else {
      ChunksBeforeTiled(c, s.sent, s.floor);
    }
  }

  /** Every sub-chunk ever sent is non-empty and fits the split budget unless it is a
      single block; indices are dense per plan chunk and only a chunk's final sub-chunk,
      the one that ends it, is marked last. */
  lemma SubChunksExact(c: Config, steps: seq<Step>, k: nat, j: nat)
    requires c.Valid() && Run(c, steps).Some? && PoliteRun(c, steps)
    requires k < |Run(c, steps).value.sent| && j < |Run(c, steps).value.sent[k]|
    ensures var subs := Run(c, steps).value.sent[k];
            && subs[j].plan == k && subs[j].sub == j && WithinSplit(subs[j], c.plan.splitBytes)
            && (subs[j].isLast <==> EndsAt(subs[j].blocks, c.plan.ChunkEnd(k)))
            && (subs[j].isLast ==> j == |subs| - 1)
  {
    hide Run, SentsOk, ChannelOk, ClaimsOk, PhasesOk, ReleaseOk, PendingOk, DeliveredOk, LinkOk, AheadOk, QueueOk,
         WorkersContent, SentContent, Tiled, Polite, FetchPlan.ChunkEnd, EndsAt;
    RunKeeps(c, steps);
    RunContent(c, steps);
    RunPolite(c, steps);
    SubExact(c, Run(c, steps).value.sent, k, j);
  }

  lemma SubExact(c: Config, sent: seq<seq<SubChunk>>, k: nat, j: nat)
    requires SentsOk(sent) && SentContent(c, sent) && Tiled(c, sent) && k < |sent| && j < |sent[k]|
    ensures sent[k][j].plan == k && sent[k][j].sub == j && WithinSplit(sent[k][j], c.plan.splitBytes)
    ensures sent[k][j].isLast <==> EndsAt(sent[k][j].blocks, c.plan.ChunkEnd(k))
    ensures sent[k][j].isLast ==> j == |sent[k]| - 1
  {
    var subs := sent[k];
    assert SentOk(subs, k) && ChunkTiled(c, subs, k) && SubContent(c, subs[j]);
    hide SentsOk, SentContent, Tiled, FetchPlan.ChunkStart, FetchPlan.ChunkEnd, TotalSize, BlocksOf;
    if EndsAt(subs[j].blocks, c.plan.ChunkEnd(k)) {
      EndsOnlyAtTheEnd(c, subs, k, j);
    }
  }

  lemma EndsOnlyAtTheEnd(c: Config, subs: seq<SubChunk>, k: nat, j: nat)
    requires SentOk(subs, k) && ChunkTiled(c, subs, k) && j < |subs|
    requires EndsAt(subs[j].blocks, c.plan.ChunkEnd(k))
    ensures subs[j].isLast
  {
    BlocksOfPrefix(subs, j + 1);
    var part, whole := BlocksOf(subs[..j + 1]), BlocksOf(subs);
    assert subs[..j + 1][..j] == subs[..j];
    assert part == BlocksOf(subs[..j]) + subs[j].blocks;
    assert Last(part) == Last(subs[j].blocks) == whole[|part| - 1];
    hide FetchPlan.ChunkStart, FetchPlan.ChunkEnd, BlocksOf;
    assert |part| == |whole|;
    if j < |subs| - 1 {
      MoreBlocks(subs, j + 1);
      assert false;
    }
  }

  lemma {:induction false} MoreBlocks(subs: seq<SubChunk>, j: nat)
    requires j < |subs| && forall i | 0 <= i < |subs| :: subs[i].blocks != []
    ensures |BlocksOf(subs[..j])| < |BlocksOf(subs)|
    decreases |subs|
  {
    var front := subs[..|subs| - 1];
    if j < |front| {
      MoreBlocks(front, j);
      assert front[..j] == subs[..j];
    } else {
      assert front == subs[..j];
    }
  }
}
