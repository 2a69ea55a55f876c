/** The parallel ordered fetch as a step system: workers that claim plan chunks,
    stream, pass the admission gate and send; the reorder stage that releases
    strictly by (plan, sub); the byte-budgeted queue and its consumer. Every step is
    one atomic action, so a run is any interleaving. */
module FetchProtocol {
  import opened Prelude
  import opened FetchPlanning
  import opened StreamPump
  import opened ChainContinuity

  const AHEAD_BUDGET_FACTOR: nat := 8
  const USIZE_MAX: nat := 0xFFFF_FFFF_FFFF_FFFF
  const MAX_PERMITS: nat := 0x1FFF_FFFF_FFFF_FFFF

  datatype Config = Config(plan: FetchPlan, queueBudget: nat) {
    ghost predicate Valid() {
      plan.Valid()
    }

    /** The gate's cap: eight sub-chunks' worth, at least one byte. */
    function AheadCap(): nat {
      Max(Min(plan.splitBytes * AHEAD_BUDGET_FACTOR, USIZE_MAX), 1)
    }

    function AheadPermits(): nat {
      Min(AheadCap(), MAX_PERMITS)
    }

    function QueuePermits(): nat {
      Max(queueBudget, 1)
    }
  }

  /** Permits one acquisition asks for: the bytes, clamped to the whole budget, to at
      least one and to a `u32`. */
  function Need(bytes: nat, cap: nat): nat {
    Min(Max(Min(bytes, cap), 1), U32_MAX)
  }

  datatype Worker =
    | Connecting
    | Claiming
    | Opening(cursor: Cursor, attempt: nat)
    | Streaming(cursor: Cursor, attempt: nat, acc: seq<Block>)
    | Admitting(cursor: Cursor, attempt: nat, emission: Emission, after: Then)
    | Sending(cursor: Cursor, attempt: nat, outgoing: SubChunk, after: Then)
    | Reconnecting(cursor: Cursor, attempt: nat)
    | Exited
  {
    predicate Active() {
      !Connecting? && !Claiming? && !Exited?
    }
  }

  /** The reorder stage waits for an arrival, looks for the next sub-chunk in its
      buffer, or waits for queue budget with one in hand. */
  datatype Stage = Receiving | Draining | Offering(inHand: SubChunk)

  /** A chunk handed to the queue, and the queue permits it holds until it is dropped. */
  datatype Queued = Queued(blocks: seq<Block>, permits: nat)

  datatype Status = Running | Failed(gaveUpAt: Option<nat>) | Succeeded | Incomplete

  datatype State = State(
    workers: seq<Worker>,
    nextClaim: nat,
    /** Ahead-budget permits not held by any sub-chunk. */
    free: nat,
    floor: nat,
    channel: seq<SubChunk>,
    stage: Stage,
    pending: map<(nat, nat), SubChunk>,
    next: (nat, nat),
    frontier: Frontier,
    /** Every block handed to the queue so far. */
    delivered: seq<Block>,
    unreleasedFrom: nat,
    plansReleased: nat,
    queueFree: nat,
    /** The chunks the consumer has not dropped yet. */
    held: seq<Queued>,
    status: Status,
    // History, read by no step: what each plan chunk's worker has sent, how much of
    // it the reorder stage has received, and which worker claimed it.
    sent: seq<seq<SubChunk>>,
    arrived: seq<nat>,
    owner: seq<nat>)

  function Init(c: Config): State
    requires c.Valid()
  {
    var n := c.plan.ChunkCount();
    State(seq(c.plan.WorkerCount(), _ => Connecting), 0, c.AheadPermits(), 0, [], Receiving,
          map[], (0, 0), Frontier(None, None), [], c.plan.start, 0, c.QueuePermits(), [], Running,
          seq(n, _ => []), seq(n, _ => 0), seq(n, _ => 0))
  }

  datatype Step =
    | Connect(w: nat)
    | ConnectFail(w: nat)
    | Claim(w: nat)
    | OpenOk(w: nat)
    | OpenFail(w: nat)
    | Item(w: nat, item: StreamItem)
    /** `paid` says whether the sub-chunk takes permits or passes as the floor. */
    | Admit(w: nat, paid: bool)
    | Send(w: nat)
    | Reconnect(w: nat)
    | ReconnectFail(w: nat)
    | Panic(w: nat)
    | Arrive
    | Drain
    | Deliver
    /** The wire-collapse detector fires, or the queue's consumer is gone. */
    | ReleaseError
    | ConsumerDrop(i: nat)
    | Finish

  predicate Enabled(c: Config, s: State, step: Step)
    requires c.Valid()
  {
    && s.status.Running?
    && match step
       case Connect(w) => w < |s.workers| && s.workers[w].Connecting?
       case ConnectFail(w) => w < |s.workers| && s.workers[w].Connecting?
       case Claim(w) => w < |s.workers| && s.workers[w].Claiming?
       case OpenOk(w) => w < |s.workers| && s.workers[w].Opening?
       case OpenFail(w) => w < |s.workers| && s.workers[w].Opening?
       case Item(w, _) => w < |s.workers| && s.workers[w].Streaming?
       case Admit(w, paid) =>
         && w < |s.workers| && s.workers[w].Admitting?
         && (if paid then s.free >= Need(TotalSize(s.workers[w].emission.blocks), c.AheadCap())
             else s.floor >= s.workers[w].cursor.plan)
       case Send(w) => w < |s.workers| && s.workers[w].Sending? && |s.channel| < |s.workers|
       case Reconnect(w) => w < |s.workers| && s.workers[w].Reconnecting?
       case ReconnectFail(w) => w < |s.workers| && s.workers[w].Reconnecting?
       case Panic(w) => w < |s.workers| && !s.workers[w].Exited?
       case Arrive => s.stage.Receiving? && s.channel != []
       case Drain => s.stage.Draining?
       case Deliver =>
         s.stage.Offering? && s.queueFree >= Need(TotalSize(s.stage.inHand.blocks), c.QueuePermits())
       case ReleaseError => true
       case ConsumerDrop(i) => i < |s.held|
       case Finish =>
         s.stage.Receiving? && s.channel == [] && forall w | 0 <= w < |s.workers| :: s.workers[w].Exited?
  }

  /** A worker's failure fails the fetch: the give-up is recorded at the lowest block not
      handed on, as long as that block is in the plan. */
  function GiveUp(c: Config, s: State): State {
    s.(status := Failed(if s.unreleasedFrom <= c.plan.end then Some(s.unreleasedFrom) else None))
  }

  /** Where worker `w` goes once its pump turn is over. */
  function Resolve(c: Config, s: State, w: nat, cursor: Cursor, attempt: nat, after: Then): State
    requires w < |s.workers|
  {
    match after
    case Continue(acc) => s.(workers := s.workers[w := Streaming(cursor, attempt, acc)])
    case Complete => s.(workers := s.workers[w := Claiming])
    case Fail =>
      var next := NextAttempt(attempt, cursor.emitted, c.plan.retriesPerChunk);
      if next.None? then
        GiveUp(c, s.(workers := s.workers[w := Reconnecting(cursor, 0)]))
      else
        s.(workers := s.workers[w := Reconnecting(cursor.(emitted := false), next.value)])
  }

  function DoClaim(c: Config, s: State, w: nat): State
    requires c.Valid() && w < |s.workers|
  {
    var k := s.nextClaim;
    if k >= c.plan.ChunkCount() then
      s.(workers := s.workers[w := Exited], nextClaim := k + 1)
    else
      s.(workers := s.workers[w := Opening(Cursor(k, c.plan.ChunkEnd(k), c.plan.ChunkStart(k), 0, false), 1)],
         nextClaim := k + 1,
         owner := if k < |s.owner| then s.owner[k := w] else s.owner)
  }

  function DoItem(c: Config, s: State, w: nat, item: StreamItem): State
    requires w < |s.workers| && s.workers[w].Streaming?
  {
    var p := s.workers[w];
    var r := React(p.cursor.end, c.plan.splitBytes, p.acc, item);
    if r.emit.Some? then
      s.(workers := s.workers[w := Admitting(p.cursor, p.attempt, r.emit.value, r.after)])
    else
      Resolve(c, s, w, p.cursor, p.attempt, r.after)
  }

  /** The floor passes for free; any other plan chunk takes permits. A worker that read
      the floor below its chunk and then waited may be granted permits after its chunk has
      become the floor, so paying is open to the floor too. */
  function DoAdmit(c: Config, s: State, w: nat, paid: bool): State
    requires w < |s.workers| && s.workers[w].Admitting?
  {
    var p := s.workers[w];
    var need := Need(TotalSize(p.emission.blocks), c.AheadCap());
    if !paid then
      s.(workers := s.workers[w := Sending(p.cursor, p.attempt, SubChunkFor(p.cursor, p.emission, None), p.after)])
    else
      var sub := SubChunkFor(p.cursor, p.emission, Some(need));
      s.(workers := s.workers[w := Sending(p.cursor, p.attempt, sub, p.after)],
         free := if s.free >= need then s.free - need else 0)
  }

  function DoSend(c: Config, s: State, w: nat): State
    requires w < |s.workers| && s.workers[w].Sending?
  {
    var p := s.workers[w];
    var k := p.cursor.plan;
    var s' := s.(channel := s.channel + [p.outgoing],
                 sent := if k < |s.sent| then s.sent[k := s.sent[k] + [p.outgoing]] else s.sent);
    if p.outgoing.blocks == [] then s'
    else Resolve(c, s', w, Advanced(p.cursor, p.outgoing.blocks), p.attempt, p.after)
  }

  function DoArrive(s: State): State
    requires s.channel != []
  {
    var sub := s.channel[0];
    s.(channel := s.channel[1..], stage := Draining,
       pending := s.pending[(sub.plan, sub.sub) := sub],
       arrived := if sub.plan < |s.arrived| then s.arrived[sub.plan := s.arrived[sub.plan] + 1] else s.arrived)
  }

  function DoDrain(s: State): State {
    if s.next !in s.pending then s.(stage := Receiving)
    else
      var sub := s.pending[s.next];
      var verified := Verify(s.frontier, sub.blocks);
      if verified.None? then s.(status := Failed(None))
      else s.(stage := Offering(sub), pending := s.pending - {s.next}, frontier := verified.value)
  }

  function DoDeliver(c: Config, s: State): State
    requires s.stage.Offering?
  {
    var sub := s.stage.inHand;
    var need := Need(TotalSize(sub.blocks), c.QueuePermits());
    var s' := s.(
      stage := Draining,
      delivered := s.delivered + sub.blocks,
      unreleasedFrom := if sub.blocks == [] then s.unreleasedFrom else Last(sub.blocks).height + 1,
      queueFree := if s.queueFree >= need then s.queueFree - need else 0,
      held := s.held + [Queued(sub.blocks, need)],
      free := s.free + (if sub.permit.Some? then sub.permit.value else 0));
    if sub.isLast then
      s'.(plansReleased := s.plansReleased + 1, next := (sub.plan + 1, 0), floor := sub.plan + 1)
    else
      s'.(next := (s.next.0, s.next.1 + 1))
  }

  function DoFinish(c: Config, s: State): State
    requires c.Valid()
  {
    s.(status := if s.plansReleased == c.plan.ChunkCount() then Succeeded else Incomplete)
  }

  function Apply(c: Config, s: State, step: Step): State
    requires c.Valid() && Enabled(c, s, step)
  {
    match step
    case Connect(w) => s.(workers := s.workers[w := Claiming])
    case ConnectFail(w) => GiveUp(c, s)
    case Claim(w) => DoClaim(c, s, w)
    case OpenOk(w) => s.(workers := s.workers[w := Streaming(s.workers[w].cursor, s.workers[w].attempt, [])])
    case OpenFail(w) => Resolve(c, s, w, s.workers[w].cursor, s.workers[w].attempt, Fail)
    case Item(w, item) => DoItem(c, s, w, item)
    case Admit(w, paid) => DoAdmit(c, s, w, paid)
    case Send(w) => DoSend(c, s, w)
    case Reconnect(w) => s.(workers := s.workers[w := Opening(s.workers[w].cursor, s.workers[w].attempt)])
    case ReconnectFail(w) => GiveUp(c, s)
    case Panic(w) => GiveUp(c, s)
    case Arrive => DoArrive(s)
    case Drain => DoDrain(s)
    case Deliver => DoDeliver(c, s)
    case ReleaseError => s.(status := Failed(None))
    case ConsumerDrop(i) =>
      s.(queueFree := s.queueFree + s.held[i].permits, held := s.held[..i] + s.held[i + 1..])
    case Finish => DoFinish(c, s)
  }

  /** The state a sequence of steps reaches from the initial one; `None` when some step
      is not enabled where it is taken. */
  function Run(c: Config, steps: seq<Step>): Option<State>
    requires c.Valid()
  {
    if steps == [] then Some(Init(c))
    else
      match Run(c, steps[..|steps| - 1])
      case None => None
      case Some(s) => if Enabled(c, s, Last(steps)) then Some(Apply(c, s, Last(steps))) else None
  }
}
