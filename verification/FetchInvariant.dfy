/** What every step of the fetch protocol keeps, whatever the streams deliver. */
module FetchInvariant {
  import opened Prelude
  import opened FetchPlanning
  import opened StreamPump
  import opened ChainContinuity
  import opened FetchProtocol

  // ── Permit accounting ────────────────────────────────────────────────────

  function PermitOf(sub: SubChunk): nat {
    if sub.permit.Some? then sub.permit.value else 0
  }

  function WorkerPermit(w: Worker): nat {
    if w.Sending? then PermitOf(w.outgoing) else 0
  }

  function WorkerPermits(ws: seq<Worker>): seq<nat> {
    seq(|ws|, i requires 0 <= i < |ws| => WorkerPermit(ws[i]))
  }

  function ChannelPermits(ch: seq<SubChunk>): nat {
    if ch == [] then 0 else PermitOf(ch[0]) + ChannelPermits(ch[1..])
  }

  lemma {:induction false} ChannelPermitsSnoc(ch: seq<SubChunk>, sub: SubChunk)
    ensures ChannelPermits(ch + [sub]) == ChannelPermits(ch) + PermitOf(sub)
  {
    if ch == [] {
      assert ch + [sub] == [sub];
    } else {
      assert (ch + [sub])[1..] == ch[1..] + [sub];
      ChannelPermitsSnoc(ch[1..], sub);
    }
  }

  type Buffer = map<(nat, nat), SubChunk>

  /** The sum of `f` over a buffer's entries. */
  ghost function Weight(m: Buffer, f: SubChunk -> nat): nat {
    if m == map[] then 0
    else
      var k :| k in m;
      f(m[k]) + Weight(m - {k}, f)
  }

  lemma {:induction false} WeightRemove(m: Buffer, k: (nat, nat), f: SubChunk -> nat)
    requires k in m
    ensures Weight(m, f) == f(m[k]) + Weight(m - {k}, f)
    decreases |m|
  {
    var x :| x in m && Weight(m, f) == f(m[x]) + Weight(m - {x}, f);
    if x != k {
      assert |m - {x}| < |m| && |m - {k}| < |m| by {
        assert (m - {x}).Keys == m.Keys - {x};
        assert (m - {k}).Keys == m.Keys - {k};
        assert |m.Keys - {x}| < |m.Keys|;
      }
      WeightRemove(m - {x}, k, f);
      WeightRemove(m - {k}, x, f);
      assert m - {x} - {k} == m - {k} - {x};
    }
  }

  lemma WeightInsert(m: Buffer, k: (nat, nat), sub: SubChunk, f: SubChunk -> nat)
    requires k !in m
    ensures Weight(m[k := sub], f) == Weight(m, f) + f(sub)
  {
    WeightRemove(m[k := sub], k, f);
    assert m[k := sub] - {k} == m;
  }

  // ── The channel, plan chunk by plan chunk ────────────────────────────────

  /** The sub-chunks of plan chunk `k`, in channel order. */
  function Of(ch: seq<SubChunk>, k: nat): seq<SubChunk> {
    if ch == [] then []
    else (if ch[0].plan == k then [ch[0]] else []) + Of(ch[1..], k)
  }

  lemma {:induction false} OfSnoc(ch: seq<SubChunk>, sub: SubChunk, k: nat)
    ensures Of(ch + [sub], k) == Of(ch, k) + (if sub.plan == k then [sub] else [])
  {
    if ch == [] {
      assert ch + [sub] == [sub];
    } else {
      assert (ch + [sub])[1..] == ch[1..] + [sub];
      OfSnoc(ch[1..], sub, k);
      var head := if ch[0].plan == k then [ch[0]] else [];
      var tail := if sub.plan == k then [sub] else [];
      assert head + (Of(ch[1..], k) + tail) == (head + Of(ch[1..], k)) + tail;
    }
  }

  // ── The invariant ────────────────────────────────────────────────────────

  /** The worker has handed on the plan chunk's last sub-chunk. */
  predicate Done(subs: seq<SubChunk>) {
    subs != [] && Last(subs).isLast
  }

  /** What a plan chunk's worker has sent: dense indices, `isLast` only at the end. */
  ghost predicate SentOk(subs: seq<SubChunk>, k: nat) {
    && (forall j | 0 <= j < |subs| :: subs[j].plan == k && subs[j].sub == j && subs[j].blocks != [])
    && (forall j | 0 <= j < |subs| - 1 :: !subs[j].isLast)
  }

  ghost predicate SentsOk(sent: seq<seq<SubChunk>>) {
    forall k | 0 <= k < |sent| :: SentOk(sent[k], k)
  }

  /** Per plan chunk, the channel holds exactly what was sent and has not arrived. */
  ghost predicate ChannelOk(sent: seq<seq<SubChunk>>, arrived: seq<nat>, ch: seq<SubChunk>) {
    && |arrived| == |sent|
    && (forall k | 0 <= k < |sent| ::
          arrived[k] <= |sent[k]| && Of(ch, k) == sent[k][arrived[k]..])
    && (forall i | 0 <= i < |ch| :: ch[i].plan < |sent|)
  }

  /** An unfinished plan chunk that was claimed belongs to exactly one worker. */
  ghost predicate OwnerOk(w: Worker, id: nat, nextClaim: nat, sent: seq<seq<SubChunk>>, owner: seq<nat>) {
    && (w.Exited? ==> nextClaim > |sent|)
    && (w.Active() ==>
          && w.cursor.plan < |sent| == |owner| && w.cursor.plan < nextClaim
          && owner[w.cursor.plan] == id && !Done(sent[w.cursor.plan])
          && w.cursor.nextSub == |sent[w.cursor.plan]|)
  }

  predicate WorksOn(w: Worker, k: nat) {
    w.Active() && w.cursor.plan == k
  }

  ghost predicate ClaimsOk(ws: seq<Worker>, nextClaim: nat, sent: seq<seq<SubChunk>>, owner: seq<nat>) {
    && |owner| == |sent|
    && (forall id | 0 <= id < |ws| :: OwnerOk(ws[id], id, nextClaim, sent, owner))
    && (forall k | 0 <= k < |sent| :: k >= nextClaim ==> sent[k] == [])
    && (forall k | 0 <= k < |sent| && k < nextClaim && !Done(sent[k]) ::
          owner[k] < |ws| && WorksOn(ws[owner[k]], k))
  }

  /** A worker alone: only a completing turn marks its sub-chunk last, and a sub-chunk
      without a permit was admitted as the floor. */
  ghost predicate PhaseOk(w: Worker, floor: nat) {
    match w
    case Admitting(_, _, e, after) => e.blocks != [] && (e.isLast <==> after.Complete?)
    case Sending(cursor, _, sub, after) =>
      && sub.plan == cursor.plan && sub.sub == cursor.nextSub && sub.blocks != []
      && (sub.isLast <==> after.Complete?)
      && (sub.permit.None? ==> floor >= cursor.plan)
    case _ => true
  }

  ghost predicate PhasesOk(ws: seq<Worker>, floor: nat) {
    forall id | 0 <= id < |ws| :: PhaseOk(ws[id], floor)
  }

  /** The release point: everything below it has arrived, and everything above the floor
      holds a permit, as does everything of the floor's that has to wait behind the next
      sub-chunk: a sub-chunk admitted as the floor is the next one when it arrives. */
  ghost predicate ReleaseOk(sent: seq<seq<SubChunk>>, arrived: seq<nat>, floor: nat, next: (nat, nat),
      plansReleased: nat) {
    && |arrived| == |sent|
    && next.0 == floor == plansReleased <= |sent|
    && (floor == |sent| ==> next.1 == 0)
    && (forall k | 0 <= k < floor :: Done(sent[k]) && arrived[k] == |sent[k]|)
    && (floor < |sent| ==> next.1 <= arrived[floor] <= |sent[floor]|)
    && (floor < |sent| && Done(sent[floor]) ==> next.1 < |sent[floor]|)
    && (forall k, j | floor < k < |sent| && 0 <= j < |sent[k]| :: sent[k][j].permit.Some?)
    && (floor < |sent| ==> forall j | next.1 < j < arrived[floor] :: sent[floor][j].permit.Some?)
  }

  /** The sub-chunks past the release point, the one in hand not counted. */
  predicate Unreleased(next: (nat, nat), stage: Stage, k: nat, j: nat) {
    k > next.0 || (k == next.0 && j >= next.1 + (if stage.Offering? then 1 else 0))
  }

  /** The reorder buffer holds exactly what arrived and is not released yet. */
  ghost predicate PendingOk(sent: seq<seq<SubChunk>>, arrived: seq<nat>, next: (nat, nat), stage: Stage,
      pending: Buffer) {
    && |arrived| == |sent|
    && (forall key | key in pending ::
          && key.0 < |sent| && key.1 < arrived[key.0] <= |sent[key.0]|
          && Unreleased(next, stage, key.0, key.1) && pending[key] == sent[key.0][key.1])
    && (forall k: nat, j: nat | k < |sent| && j < arrived[k] && Unreleased(next, stage, k, j) ::
          (k, j) in pending)
    && (stage.Receiving? ==> next !in pending)
    && (stage.Offering? ==>
          && next.0 < |sent| && next.1 < arrived[next.0] <= |sent[next.0]|
          && stage.inHand == sent[next.0][next.1])
  }

  /** The blocks of the plan chunks before `f`. */
  function ChunksBefore(sent: seq<seq<SubChunk>>, f: nat): seq<Block>
    requires f <= |sent|
  {
    if f == 0 then [] else ChunksBefore(sent, f - 1) + BlocksOf(sent[f - 1])
  }

  /** … then of `j` sub-chunks of chunk `f`. */
  function Released(sent: seq<seq<SubChunk>>, f: nat, j: nat): seq<Block>
    requires f <= |sent| && (f < |sent| ==> j <= |sent[f]|)
  {
    ChunksBefore(sent, f) + (if f < |sent| then BlocksOf(sent[f][..j]) else [])
  }

  function InHand(stage: Stage): seq<Block> {
    if stage.Offering? then stage.inHand.blocks else []
  }

  ghost predicate DeliveredOk(sent: seq<seq<SubChunk>>, next: (nat, nat), delivered: seq<Block>) {
    && next.0 <= |sent| && (next.0 < |sent| ==> next.1 <= |sent[next.0]|)
    && delivered == Released(sent, next.0, next.1)
  }

  /** What is handed on, with the sub-chunk in hand, is one linked run. */
  ghost predicate LinkOk(start: nat, stage: Stage, delivered: seq<Block>, frontier: Frontier, unreleasedFrom: nat) {
    && Linked(delivered + InHand(stage))
    && frontier == FrontierOf(delivered + InHand(stage))
    && unreleasedFrom == (if delivered == [] then start else Last(delivered).height + 1)
  }

  function StagePermit(stage: Stage): nat {
    if stage.Offering? then PermitOf(stage.inHand) else 0
  }

  ghost predicate AheadOk(c: Config, free: nat, ws: seq<Worker>, ch: seq<SubChunk>, pending: Buffer, stage: Stage) {
    free + Sum(WorkerPermits(ws)) + ChannelPermits(ch) + Weight(pending, PermitOf) + StagePermit(stage)
    == c.AheadPermits()
  }

  function QueuePermitsOf(held: seq<Queued>): seq<nat> {
    seq(|held|, i requires 0 <= i < |held| => held[i].permits)
  }

  ghost predicate QueueOk(c: Config, queueFree: nat, held: seq<Queued>) {
    queueFree + Sum(QueuePermitsOf(held)) == c.QueuePermits()
  }

  ghost predicate Inv(c: Config, s: State)
    requires c.Valid()
  {
    && |s.workers| == c.plan.WorkerCount() && |s.sent| == c.plan.ChunkCount()
    && SentsOk(s.sent)
    && ChannelOk(s.sent, s.arrived, s.channel)
    && ClaimsOk(s.workers, s.nextClaim, s.sent, s.owner)
    && PhasesOk(s.workers, s.floor)
    && ReleaseOk(s.sent, s.arrived, s.floor, s.next, s.plansReleased)
    && PendingOk(s.sent, s.arrived, s.next, s.stage, s.pending)
    && DeliveredOk(s.sent, s.next, s.delivered)
    && LinkOk(c.plan.start, s.stage, s.delivered, s.frontier, s.unreleasedFrom)
    && AheadOk(c, s.free, s.workers, s.channel, s.pending, s.stage)
    && QueueOk(c, s.queueFree, s.held)
    && (s.status.Succeeded? ==> s.floor == |s.sent| && s.stage.Receiving?)
  }

  lemma InitKeeps(c: Config)
    requires c.Valid()
    ensures Inv(c, Init(c))
  {
    var s := Init(c);
    ChunkCountBounds(c.plan, 0);
    SumZeros(WorkerPermits(s.workers));
  }

  // ── Steps of one worker ──────────────────────────────────────────────────

  /** The worker stays where it is: same plan chunk, same position in it. */
  ghost predicate SamePlace(before: Worker, after: Worker) {
    && (after.Exited? <==> before.Exited?)
    && (after.Active() <==> before.Active())
    && (after.Active() ==>
          && after.cursor.plan == before.cursor.plan
          && after.cursor.nextSub == before.cursor.nextSub)
  }

  lemma SamePlaceKeepsClaims(
    ws: seq<Worker>, w: nat, after: Worker, nextClaim: nat, sent: seq<seq<SubChunk>>, owner: seq<nat>)
    requires ClaimsOk(ws, nextClaim, sent, owner) && w < |ws|
    requires SamePlace(ws[w], after)
    ensures ClaimsOk(ws[w := after], nextClaim, sent, owner)
  {
  }

  lemma WorkerPermitsUpdate(ws: seq<Worker>, w: nat, after: Worker)
    requires w < |ws|
    ensures Sum(WorkerPermits(ws[w := after])) == Sum(WorkerPermits(ws)) - WorkerPermit(ws[w]) + WorkerPermit(after)
  {
    SumUpdate(WorkerPermits(ws), w, WorkerPermit(after));
    assert WorkerPermits(ws[w := after]) == WorkerPermits(ws)[w := WorkerPermit(after)];
  }

  lemma UpdatePhase(ws: seq<Worker>, w: nat, after: Worker, floor: nat)
    requires PhasesOk(ws, floor) && w < |ws| && PhaseOk(after, floor)
    ensures PhasesOk(ws[w := after], floor)
  {
  }

  /** The budget balances when a worker's permits come from, or go back to, the free ones. */
  lemma UpdateAhead(
    c: Config, free: nat, free': nat, ws: seq<Worker>, w: nat, after: Worker, ch: seq<SubChunk>, pending: Buffer,
    stage: Stage)
    requires AheadOk(c, free, ws, ch, pending, stage) && w < |ws|
    requires free' + WorkerPermit(after) == free + WorkerPermit(ws[w])
    ensures AheadOk(c, free', ws[w := after], ch, pending, stage)
  {
    WorkerPermitsUpdate(ws, w, after);
  }

  /** A worker that stays where it is, holding as many permits, keeps the invariant. */
  lemma SwapKeeps(c: Config, s: State, w: nat, after: Worker, status: Status)
    requires c.Valid() && w < |s.workers| && !status.Succeeded?
    requires SamePlace(s.workers[w], after) && PhaseOk(after, s.floor)
    requires WorkerPermit(after) == WorkerPermit(s.workers[w])
    requires Inv(c, s)
    ensures Inv(c, s.(workers := s.workers[w := after], status := status))
  {
    hide SentsOk, ChannelOk, ClaimsOk, PhasesOk, ReleaseOk, PendingOk, DeliveredOk, LinkOk, AheadOk, QueueOk;
    SamePlaceKeepsClaims(s.workers, w, after, s.nextClaim, s.sent, s.owner);
    UpdatePhase(s.workers, w, after, s.floor);
    UpdateAhead(c, s.free, s.free, s.workers, w, after, s.channel, s.pending, s.stage);
  }
}
