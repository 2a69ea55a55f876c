/** The fetch plan: how a block range is cut into plan chunks. */
module FetchPlanning {
  import opened Prelude

  datatype FetchPlan = FetchPlan(
    start: nat,
    /** Inclusive. */
    end: nat,
    chunkBlocks: nat,
    streams: nat,
    retriesPerChunk: nat,
    splitBytes: nat)
  {
    /** What `FetchPlan::new` asserts of its caller. */
    ghost predicate Valid() {
      start <= end && chunkBlocks > 0
    }

    function ChunkCount(): (n: nat)
      requires Valid()
    {
      (end - start + 1 + chunkBlocks - 1) / chunkBlocks
    }

    function ChunkStart(index: nat): nat {
      start + index * chunkBlocks
    }

    function ChunkEnd(index: nat): int {
      Min(ChunkStart(index) + chunkBlocks - 1, end)
    }

    function WorkerCount(): (n: nat)
      requires Valid()
    {
      Min(Max(streams, 1), ChunkCount())
    }
  }

  /** Chunk `index` is counted exactly when its first block is in the range. */
  lemma ChunkCountBounds(p: FetchPlan, index: nat)
    requires p.Valid()
    ensures index < p.ChunkCount() <==> p.ChunkStart(index) <= p.end
    ensures p.ChunkCount() > 0
  {
    var span := p.end - p.start + 1;
    var n := p.ChunkCount();
    DivCeil(span, p.chunkBlocks);
    if index < n {
      MulMonotone(index, n - 1, p.chunkBlocks);
    } else {
      MulMonotone(n, index, p.chunkBlocks);
    }
  }

  /** As many workers as the plan asks for, at least one, and never more than it has chunks:
      the largest number within all of that. */
  lemma WorkersBound(p: FetchPlan, n: nat)
    requires p.Valid()
    ensures n <= p.WorkerCount() <==> n <= p.ChunkCount() && (n <= p.streams || n <= 1)
    ensures p.WorkerCount() > 0
  {
    ChunkCountBounds(p, 0);
  }

  lemma DivCeil(span: nat, c: nat)
    requires span > 0 && c > 0
    ensures ((span + c - 1) / c) * c >= span
    ensures ((span + c - 1) / c - 1) * c < span
    ensures (span + c - 1) / c > 0
  {
    var q := (span + c - 1) / c;
    assert span + c - 1 == q * c + (span + c - 1) % c;
    assert (q - 1) * c == q * c - c;
    if q <= 0 {
      MulMonotone(q, 0, c);
    }
  }

  lemma MulMonotone(a: int, b: int, c: nat)
    requires a <= b
    ensures a * c <= b * c
  {
  }

  /** The plan chunks tile the range: the first starts at `start`, each is
      non-empty, each next one starts right after the one before it, and the
      last ends at `end`. */
  lemma ChunksTile(p: FetchPlan, index: nat)
    requires p.Valid() && index < p.ChunkCount()
    ensures p.ChunkStart(0) == p.start
    ensures p.ChunkStart(index) <= p.ChunkEnd(index) <= p.end
    ensures index + 1 < p.ChunkCount() ==> p.ChunkEnd(index) + 1 == p.ChunkStart(index + 1)
    ensures index + 1 == p.ChunkCount() ==> p.ChunkEnd(index) == p.end
  {
    ChunkCountBounds(p, index);
    ChunkCountBounds(p, index + 1);
    assert p.ChunkStart(index + 1) == p.ChunkStart(index) + p.chunkBlocks by {
      assert (index + 1) * p.chunkBlocks == index * p.chunkBlocks + p.chunkBlocks;
    }
  }
}
