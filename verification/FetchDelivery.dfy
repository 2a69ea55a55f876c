/** What the queue receives, whatever the streams deliver. */
module FetchDelivery {
  import opened Prelude
  import opened FetchPlanning
  import opened StreamPump
  import opened ChainContinuity
  import opened FetchProtocol
  import opened FetchInvariant
  import opened FetchSteps
  import opened FetchContent

  // ── Any streams ──────────────────────────────────────────────────────────

  lemma {:induction false} LinkedIsConsecutive(blocks: seq<Block>, i: nat)
    requires Linked(blocks) && i < |blocks|
    ensures blocks[i].height == blocks[0].height + i
  {
    if i > 0 {
      LinkedIsConsecutive(blocks, i - 1);
    }
  }

  /** A finished plan chunk ends at its own end. */
  lemma ChunkEnds(c: Config, sent: seq<seq<SubChunk>>, k: nat)
    requires k < |sent| && SentOk(sent[k], k) && SentContent(c, sent) && Done(sent[k])
    ensures BlocksOf(sent[k]) != [] && Last(BlocksOf(sent[k])).height == c.plan.ChunkEnd(k)
  {
    var last := Last(sent[k]);
    assert SubContent(c, sent[k][|sent[k]| - 1]);
    assert Last(BlocksOf(sent[k])) == Last(last.blocks);
  }

  lemma PrefixStep(a: seq<Block>, x: seq<Block>, b: seq<Block>)
    requires a + x <= b
    ensures a <= b
  {
    assert a <= a + x;
  }

  lemma {:induction false} ChunksBeforePrefix(sent: seq<seq<SubChunk>>, k: nat, n: nat)
    requires k <= n <= |sent|
    ensures ChunksBefore(sent, k) <= ChunksBefore(sent, n)
    decreases n - k
  {
    if k < n {
      ChunksBeforePrefix(sent, k + 1, n);
      PrefixStep(ChunksBefore(sent, k), BlocksOf(sent[k]), ChunksBefore(sent, n));
    }
  }

  /** All plan chunks are done and the release covers them. */
  ghost predicate AllReleased(c: Config, s: State)
    requires c.Valid()
  {
    && |s.sent| == c.plan.ChunkCount()
    && SentsOk(s.sent) && SentContent(c, s.sent)
    && (forall k | 0 <= k < |s.sent| :: Done(s.sent[k]))
    && s.delivered == ChunksBefore(s.sent, |s.sent|)
    && Linked(s.delivered)
  }

  lemma SucceededReleasedAll(c: Config, steps: seq<Step>)
    requires c.Valid() && Run(c, steps).Some? && Run(c, steps).value.status.Succeeded?
    ensures AllReleased(c, Run(c, steps).value)
  {
    hide Run, ChannelOk, ClaimsOk, PhasesOk, PendingOk, AheadOk, QueueOk, SentContent, WorkersContent, SentsOk;
    var s := Run(c, steps).value;
    RunKeeps(c, steps);
    RunContent(c, steps);
    assert s.delivered + [] == s.delivered;
  }

  /** A later plan chunk starts right after the one before it ended. */
  lemma ChunkExact(c: Config, s: State, k: nat)
    requires c.Valid() && AllReleased(c, s) && 0 < k < |s.sent|
    ensures Consecutive(BlocksOf(s.sent[k]), c.plan.ChunkStart(k))
    ensures c.plan.ChunkStart(k) + |BlocksOf(s.sent[k])| == c.plan.ChunkEnd(k) + 1
  {
    hide BlocksOf, Linked, SentContent, Done, ChunksBefore, SentOk, Consecutive;
    hide FetchPlan.ChunkStart, FetchPlan.ChunkEnd, FetchPlan.ChunkCount;
    ChunkEnds(c, s.sent, k - 1);
    ChunkEnds(c, s.sent, k);
    ChunksBeforePrefix(s.sent, k + 1, |s.sent|);
    ChunksTile(c.plan, k - 1);
    ChunkAfterChunk(s.sent, k, s.delivered);
  }

  lemma ChunkAfterChunk(sent: seq<seq<SubChunk>>, k: nat, run: seq<Block>)
    requires 0 < k < |sent| && Linked(run) && ChunksBefore(sent, k + 1) <= run
    requires BlocksOf(sent[k - 1]) != [] && BlocksOf(sent[k]) != []
    ensures Consecutive(BlocksOf(sent[k]), Last(BlocksOf(sent[k - 1])).height + 1)
    ensures Last(BlocksOf(sent[k])).height == Last(BlocksOf(sent[k - 1])).height + |BlocksOf(sent[k])|
  {
    assert ChunksBefore(sent, k) == ChunksBefore(sent, k - 1) + BlocksOf(sent[k - 1]);
    JoinPrefix(run, ChunksBefore(sent, k - 1), ChunksBefore(sent, k), ChunksBefore(sent, k + 1),
               BlocksOf(sent[k - 1]), BlocksOf(sent[k]));
  }

  lemma JoinPrefix(run: seq<Block>, a: seq<Block>, b: seq<Block>, d: seq<Block>, prev: seq<Block>, blocks: seq<Block>)
    requires Linked(run) && d <= run && b == a + prev && d == b + blocks && prev != [] && blocks != []
    ensures Consecutive(blocks, Last(prev).height + 1)
    ensures Last(blocks).height == Last(prev).height + |blocks|
  {
    ChunkInRun(run, a, prev, blocks);
  }

  lemma ChunkInRun(run: seq<Block>, before: seq<Block>, prev: seq<Block>, blocks: seq<Block>)
    requires Linked(run) && before + prev + blocks <= run && prev != [] && blocks != []
    ensures Consecutive(blocks, Last(prev).height + 1)
    ensures Last(blocks).height == Last(prev).height + |blocks|
  {
    var at := |before| + |prev|;
    assert run[at - 1] == Last(prev);
    LinkedIsConsecutive(run, at - 1);
    forall i | 0 <= i < |blocks| ensures blocks[i].height == Last(prev).height + 1 + i {
      assert run[at + i] == blocks[i];
      LinkedIsConsecutive(run, at + i);
    }
  }

  /** Whatever the streams deliver, everything handed to the queue is height-consecutive
      and hash-linked wherever a parent hash is present, in every reachable state. */
  lemma DeliveredLinked(c: Config, steps: seq<Step>)
    requires c.Valid() && Run(c, steps).Some?
    ensures Linked(Run(c, steps).value.delivered)
  {
    var s := Run(c, steps).value;
    RunKeeps(c, steps);
    LinkedPrefix(s.delivered + InHand(s.stage), |s.delivered|);
    assert (s.delivered + InHand(s.stage))[..|s.delivered|] == s.delivered;
  }

  lemma FirstAndLast(c: Config, s: State)
    requires c.Valid() && AllReleased(c, s)
    ensures |s.sent| > 0 && s.delivered != [] && Last(s.delivered).height == c.plan.end
    ensures |BlocksOf(s.sent[0])| > 0 && Last(BlocksOf(s.sent[0])).height == c.plan.ChunkEnd(0)
    ensures s.delivered[0] == BlocksOf(s.sent[0])[0]
  {
    hide BlocksOf, Linked, SentContent, Done, ChunksBefore, SentOk;
    hide FetchPlan.ChunkStart, FetchPlan.ChunkEnd, FetchPlan.ChunkCount;
    var n := c.plan.ChunkCount();
    ChunkCountBounds(c.plan, 0);
    ChunkEnds(c, s.sent, n - 1);
    ChunkEnds(c, s.sent, 0);
    ChunksBeforePrefix(s.sent, 1, n);
    ChunksBeforeEnds(s.sent);
    ChunksTile(c.plan, n - 1);
  }

  /** The chunks together begin with the first one and end with the last one. */
  lemma ChunksBeforeEnds(sent: seq<seq<SubChunk>>)
    requires sent != []
    ensures ChunksBefore(sent, 1) == BlocksOf(sent[0])
    ensures ChunksBefore(sent, |sent|) == ChunksBefore(sent, |sent| - 1) + BlocksOf(sent[|sent| - 1])
  {
    assert [] + BlocksOf(sent[0]) == BlocksOf(sent[0]);
  }

  /** … and a fetch that succeeds delivered every plan chunk after the first exactly, the
      first one up to its end. */
  lemma OkFetchAnyStream(c: Config, steps: seq<Step>)
    requires c.Valid() && Run(c, steps).Some? && Run(c, steps).value.status.Succeeded?
    ensures var s := Run(c, steps).value;
            && |s.sent| == c.plan.ChunkCount() > 0
            && s.delivered != [] && s.delivered == ChunksBefore(s.sent, |s.sent|)
            && Last(s.delivered).height == c.plan.end
            && |BlocksOf(s.sent[0])| > 0 && Last(BlocksOf(s.sent[0])).height == c.plan.ChunkEnd(0)
            && s.delivered[0] == BlocksOf(s.sent[0])[0]
            && (forall k | 0 < k < |s.sent| ::
                  && Consecutive(BlocksOf(s.sent[k]), c.plan.ChunkStart(k))
                  && c.plan.ChunkStart(k) + |BlocksOf(s.sent[k])| == c.plan.ChunkEnd(k) + 1)
  {
    hide Run, ChunksBefore, BlocksOf, Linked, SentsOk, SentContent, Done, Consecutive;
    hide FetchPlan.ChunkStart, FetchPlan.ChunkEnd, FetchPlan.ChunkCount;
    SucceededReleasedAll(c, steps);
    var s := Run(c, steps).value;
    FirstAndLast(c, s);
    forall k | 0 < k < |s.sent|
      ensures Consecutive(BlocksOf(s.sent[k]), c.plan.ChunkStart(k))
      ensures c.plan.ChunkStart(k) + |BlocksOf(s.sent[k])| == c.plan.ChunkEnd(k) + 1
    {
      ChunkExact(c, s, k);
    }
  }

  /** The plan's blocks, each once and in order. */
  ghost predicate ExactlyPlan(p: FetchPlan, blocks: seq<Block>) {
    Consecutive(blocks, p.start) && p.start + |blocks| == p.end + 1
  }

  /** The pump and the continuity check accept any first block, so a successful fetch
      covers its plan exactly if and only if the first block received is the plan's
      first. */
  lemma OkFetchExactIff(c: Config, steps: seq<Step>)
    requires c.Valid() && Run(c, steps).Some? && Run(c, steps).value.status.Succeeded?
    ensures var d := Run(c, steps).value.delivered;
            d != [] && (ExactlyPlan(c.plan, d) <==> d[0].height == c.plan.start)
  {
    hide Run, ChunksBefore;
    OkFetchAnyStream(c, steps);
    DeliveredLinked(c, steps);
    var d := Run(c, steps).value.delivered;
    forall i | 0 <= i < |d| ensures d[i].height == d[0].height + i {
      LinkedIsConsecutive(d, i);
    }
  }

  lemma Extend(c: Config, steps: seq<Step>, s: State, step: Step)
    requires c.Valid() && Run(c, steps) == Some(s) && Enabled(c, s, step)
    ensures Run(c, steps + [step]) == Some(Apply(c, s, step))
  {
    assert (steps + [step])[..|steps|] == steps;
  }

  lemma NoStepsYet(c: Config)
    requires c.Valid()
    ensures Run(c, []) == Some(Init(c))
  {
  }

  /** A server that answers a request for blocks 5 and 6 with block 6 alone: the fetch
      succeeds and block 5 was never delivered. */
  lemma FirstBlockUnchecked()
    ensures exists c: Config, steps: seq<Step> ::
              && c.Valid() && Run(c, steps).Some? && Run(c, steps).value.status.Succeeded?
              && !ExactlyPlan(c.plan, Run(c, steps).value.delivered)
  {
    hide Run, React, Verify, TotalSize;
    var c := Config(FetchPlan(5, 6, 2, 1, 3, 100), 1000);
    var six := Block(6, [6], [], 10);
    var s0 := Init(c);
    assert c.plan.ChunkCount() == 1 && c.plan.ChunkEnd(0) == 6 && c.AheadCap() == 800;
    NoStepsYet(c);
    var s1, r1 := Claimed(c, s0, []);
    var s2, r2 := Sent(c, s1, r1, six);
    var s3, r3 := Delivered(c, s2, r2, six);
    Extend(c, r3, s3, Claim(0));
    var s4 := Apply(c, s3, Claim(0));
    Extend(c, r3 + [Claim(0)], s4, Finish);
    var steps := r3 + [Claim(0)] + [Finish];
    assert Run(c, steps).value.delivered == [six];
  }

  /** The state of the one-worker fetch of blocks 5 and 6 at its landmarks. */
  ghost predicate Lone(c: Config, s: State, steps: seq<Step>)
  {
    && c == Config(FetchPlan(5, 6, 2, 1, 3, 100), 1000) && c.plan.ChunkCount() == 1
    && Run(c, steps) == Some(s) && s.status.Running? && |s.workers| == 1
    && s.pending == map[] && s.floor == 0 && s.next == (0, 0) && s.plansReleased == 0
    && s.frontier == Frontier(None, None) && s.delivered == [] && s.queueFree == 1000 && s.stage.Receiving?
  }

  lemma Claimed(c: Config, s: State, steps: seq<Step>) returns (s': State, steps': seq<Step>)
    requires Lone(c, s, steps) && s.workers[0].Connecting? && s.nextClaim == 0 && s.channel == []
    ensures Lone(c, s', steps') && s'.nextClaim == 1 && s'.channel == []
    ensures s'.workers == [Streaming(Cursor(0, 6, 5, 0, false), 1, [])]
  {
    hide Run, React, TotalSize;
    Extend(c, steps, s, Connect(0));
    var a := Apply(c, s, Connect(0));
    Extend(c, steps + [Connect(0)], a, Claim(0));
    var b := Apply(c, a, Claim(0));
    Extend(c, steps + [Connect(0)] + [Claim(0)], b, OpenOk(0));
    s', steps' := Apply(c, b, OpenOk(0)), steps + [Connect(0)] + [Claim(0)] + [OpenOk(0)];
  }

  lemma Sent(c: Config, s: State, steps: seq<Step>, six: Block) returns (s': State, steps': seq<Step>)
    requires Lone(c, s, steps) && s.nextClaim == 1 && s.channel == [] && six == Block(6, [6], [], 10)
    requires s.workers == [Streaming(Cursor(0, 6, 5, 0, false), 1, [])]
    ensures Lone(c, s', steps') && s'.nextClaim == 1 && s'.workers == [Claiming]
    ensures s'.channel == [SubChunk(0, 0, true, 10, [six], None)]
  {
    hide Run, Verify, FetchPlan.ChunkStart, FetchPlan.ChunkEnd, FetchPlan.ChunkCount;
    var got, ended := Item(0, Received(six, false)), Item(0, CleanEnd);
    Extend(c, steps, s, got);
    var a := Apply(c, s, got);
    assert a.workers[0] == Streaming(Cursor(0, 6, 5, 0, false), 1, [six]);
    Extend(c, steps + [got], a, ended);
    var b := Apply(c, a, ended);
    assert b.workers[0] == Admitting(Cursor(0, 6, 5, 0, false), 1, Emission([six], true), Complete);
    Extend(c, steps + [got] + [ended], b, Admit(0, false));
    var d := Apply(c, b, Admit(0, false));
    assert TotalSize([six]) == 10 by {
      assert [six][..0] == [];
    }
    Extend(c, steps + [got] + [ended] + [Admit(0, false)], d, Send(0));
    s', steps' := Apply(c, d, Send(0)), steps + [got] + [ended] + [Admit(0, false)] + [Send(0)];
  }

  /** The stage takes the sub-chunk into hand … */
  lemma Offered(c: Config, s: State, steps: seq<Step>, six: Block) returns (s': State, steps': seq<Step>)
    requires Lone(c, s, steps) && s.nextClaim == 1 && six == Block(6, [6], [], 10)
    requires s.workers == [Claiming] && s.channel == [SubChunk(0, 0, true, 10, [six], None)]
    ensures Run(c, steps') == Some(s') && s'.status.Running? && s'.workers == [Claiming] && s'.nextClaim == 1
    ensures s'.stage == Offering(SubChunk(0, 0, true, 10, [six], None)) && s'.channel == [] && s'.pending == map[]
    ensures s'.plansReleased == 0 && s'.delivered == [] && s'.queueFree == 1000
  {
    hide Run, React, FetchPlan.ChunkStart, FetchPlan.ChunkEnd, FetchPlan.ChunkCount;
    Extend(c, steps, s, Arrive);
    var a := Apply(c, s, Arrive);
    Extend(c, steps + [Arrive], a, Drain);
    assert Verify(Frontier(None, None), [six]) == Some(FrontierAt(six)) by {
      assert [six][1..] == [];
    }
    s', steps' := Apply(c, a, Drain), steps + [Arrive] + [Drain];
    assert s'.pending == map[];
  }

  /** … and hands it on. */
  lemma Delivered(c: Config, s: State, steps: seq<Step>, six: Block) returns (s': State, steps': seq<Step>)
    requires Lone(c, s, steps) && s.nextClaim == 1 && six == Block(6, [6], [], 10)
    requires s.workers == [Claiming] && s.channel == [SubChunk(0, 0, true, 10, [six], None)]
    ensures Run(c, steps') == Some(s') && s'.status.Running? && s'.workers == [Claiming] && s'.nextClaim == 1
    ensures s'.stage.Receiving? && s'.channel == [] && s'.plansReleased == 1 && s'.delivered == [six]
  {
    hide Run, React, Verify, FetchPlan.ChunkStart, FetchPlan.ChunkEnd, FetchPlan.ChunkCount;
    var b, before := Offered(c, s, steps, six);
    assert TotalSize([six]) == 10 by {
      assert [six][..0] == [];
    }
    Extend(c, before, b, Deliver);
    var d := Apply(c, b, Deliver);
    Extend(c, before + [Deliver], d, Drain);
    s', steps' := Apply(c, d, Drain), before + [Deliver] + [Drain];
  }
}
