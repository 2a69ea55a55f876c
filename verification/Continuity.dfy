/** Height and hash-chain continuity of the ordered block run. */
module ChainContinuity {
  import opened Prelude
  import opened StreamPump

  /** The verification frontier carried between chunks. */
  datatype Frontier = Frontier(lastHash: Option<seq<nat>>, lastHeight: Option<nat>)

  datatype Verdict =
    | Ok
    | MisbehavingServer
    | HeightGap(at: nat)
    | PrevHashMismatch(at: nat)

  function Check(f: Frontier, b: Block): Verdict {
    if b.height > U32_MAX then MisbehavingServer
    else if f.lastHeight.Some? && b.height != f.lastHeight.value + 1 then HeightGap(b.height)
    else if f.lastHash.Some? && b.prevHash != [] && b.prevHash != f.lastHash.value then PrevHashMismatch(b.height)
    else Ok
  }

  function FrontierAt(b: Block): Frontier {
    Frontier(Some(b.hash), Some(b.height))
  }

  /** The frontier after blocks that all pass, `None` when one does not. */
  function Verify(f: Frontier, blocks: seq<Block>): Option<Frontier>
    decreases |blocks|
  {
    if blocks == [] then Some(f)
    else if Check(f, blocks[0]) != Ok then None
    else Verify(FrontierAt(blocks[0]), blocks[1..])
  }

  /** Heights go up by one, and every block that names its parent's hash names the
      hash of the block before it. */
  ghost predicate Linked(blocks: seq<Block>) {
    forall i | 0 < i < |blocks| ::
      && blocks[i].height == blocks[i - 1].height + 1
      && (blocks[i].prevHash == [] || blocks[i].prevHash == blocks[i - 1].hash)
  }

  function FrontierOf(blocks: seq<Block>): Frontier {
    if blocks == [] then Frontier(None, None) else FrontierAt(Last(blocks))
  }

  ghost predicate HeightsFitU32(blocks: seq<Block>) {
    forall b | b in blocks :: b.height <= U32_MAX
  }

  lemma LinkedSnoc(run: seq<Block>, b: Block)
    requires Linked(run)
    ensures Check(FrontierOf(run), b) == Ok <==> Linked(run + [b]) && b.height <= U32_MAX
  {
    var longer := run + [b];
    if run != [] {
      assert longer[|run|] == b && longer[|run| - 1] == Last(run);
      if Check(FrontierOf(run), b) == Ok {
        forall i | 0 < i < |longer|
          ensures longer[i].height == longer[i - 1].height + 1
          ensures longer[i].prevHash == [] || longer[i].prevHash == longer[i - 1].hash
        {
          if i < |run| {
            assert longer[i] == run[i] && longer[i - 1] == run[i - 1];
          }
        }
      }
    }
  }

  lemma LinkedPrefix(run: seq<Block>, n: nat)
    requires Linked(run) && n <= |run|
    ensures Linked(run[..n])
  {
  }

  /** A batch passes after a linked run exactly when the longer run is linked (and
      its heights fit a `u32`); the frontier is then the longer run's. */
  lemma {:induction false} VerifyExtendsRun(before: seq<Block>, blocks: seq<Block>)
    requires Linked(before)
    ensures var r := Verify(FrontierOf(before), blocks);
            && (r.Some? <==> Linked(before + blocks) && HeightsFitU32(blocks))
            && (r.Some? ==> r.value == FrontierOf(before + blocks))
    decreases |blocks|
  {
    if blocks == [] {
      assert before + blocks == before;
    } else {
      var longer := before + [blocks[0]];
      assert before + blocks == longer + blocks[1..];
      LinkedSnoc(before, blocks[0]);
      if Check(FrontierOf(before), blocks[0]) == Ok {
        VerifyExtendsRun(longer, blocks[1..]);
        assert HeightsFitU32(blocks) <==> HeightsFitU32(blocks[1..]) by {
          assert blocks == [blocks[0]] + blocks[1..];
        }
      } else if Linked(before + blocks) {
        LinkedPrefix(before + blocks, |before| + 1);
        assert (before + blocks)[..|before| + 1] == longer;
        assert blocks[0] in blocks;
      }
    }
  }

  /** Which check refuses a block after a linked run: a height that is not the next one is a
      gap, the next height naming another parent is a mismatch, and a height beyond a `u32`
      is refused before either. Nothing follows on from an empty run, so nothing is a gap or
      a mismatch there. */
  lemma VerdictMeaning(run: seq<Block>, b: Block)
    requires Linked(run)
    ensures var v := Check(FrontierOf(run), b);
            var follows := run != [] ==> b.height == Last(run).height + 1;
            var names := run != [] && b.prevHash != [] ==> b.prevHash == Last(run).hash;
            && (v.MisbehavingServer? <==> b.height > U32_MAX)
            && (v == HeightGap(b.height) <==> b.height <= U32_MAX && !follows)
            && (v == PrevHashMismatch(b.height) <==> b.height <= U32_MAX && follows && !names)
            && (v.Ok? <==> b.height <= U32_MAX && Linked(run + [b]))
  {
    LinkedSnoc(run, b);
  }

  class Continuity {
    var frontier: Frontier

    constructor ()
      ensures frontier == FrontierOf([])
    {
      frontier := Frontier(None, None);
    }

    /** Stops at the first block that fails, with the blocks before it accepted. */
    method VerifyBlocks(blocks: seq<Block>) returns (r: Verdict)
      modifies this
      ensures r == Ok <==> Verify(old(frontier), blocks).Some?
      ensures r == Ok ==> frontier == Verify(old(frontier), blocks).value
      ensures r != Ok ==>
                exists n | 0 <= n < |blocks| ::
                  && Verify(old(frontier), blocks[..n]) == Some(frontier)
                  && r == Check(frontier, blocks[n])
    {
      var n := 0;
      while n < |blocks|
        invariant 0 <= n <= |blocks|
        invariant Verify(old(frontier), blocks[..n]) == Some(frontier)
        invariant Verify(old(frontier), blocks) == Verify(frontier, blocks[n..])
      {
        r := Check(frontier, blocks[n]);
        if r != Ok {
          return;
        }
        VerifySnoc(old(frontier), blocks[..n], blocks[n]);
        assert blocks[..n] + [blocks[n]] == blocks[..n + 1];
        assert blocks[n..][1..] == blocks[n + 1..];
        frontier := FrontierAt(blocks[n]);
        n := n + 1;
      }
      r := Ok;
    }
  }

  lemma {:induction false} VerifySnoc(f: Frontier, blocks: seq<Block>, b: Block)
    requires Verify(f, blocks).Some?
    ensures Verify(f, blocks + [b]) ==
            if Check(Verify(f, blocks).value, b) == Ok then Some(FrontierAt(b)) else None
    decreases |blocks|
  {
    if blocks != [] {
      assert (blocks + [b])[1..] == blocks[1..] + [b];
      VerifySnoc(FrontierAt(blocks[0]), blocks[1..], b);
    }
  }
}
