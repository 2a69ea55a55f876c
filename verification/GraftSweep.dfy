/** The pass-start sweep's decisions: which buffered runs nothing will resume, and which
    scanned blocks they lie in. */
module GraftSweep {
  import opened Prelude
  import opened GraftBuffer
  import opened RescanWalks

  // ── Runs of positions ────────────────────────────────────────────────────

  ghost predicate StrictlyAscending(ps: seq<nat>) {
    forall i, j | 0 <= i < j < |ps| :: ps[i] < ps[j]
  }

  predicate InRun(r: PositionRun, p: nat) {
    r.first <= p <= r.last
  }

  ghost predicate InRuns(rs: seq<PositionRun>, p: nat) {
    exists i | 0 <= i < |rs| :: InRun(rs[i], p)
  }

  /** Maximal runs: ascending, with a gap before each next one. */
  ghost predicate Separated(rs: seq<PositionRun>) {
    && (forall i | 0 <= i < |rs| :: rs[i].first <= rs[i].last)
    && (forall i, j | 0 <= i < j < |rs| :: rs[i].last + 1 < rs[j].first)
  }

  method ContiguousRuns(positions: seq<nat>) returns (runs: seq<PositionRun>)
    requires StrictlyAscending(positions)
    ensures Separated(runs)
    ensures forall p: nat :: InRuns(runs, p) <==> p in positions
  {
    runs := [];
    for k := 0 to |positions|
      invariant Separated(runs)
      invariant runs != [] ==> k > 0 && Last(runs).last == positions[k - 1]
      invariant forall p: nat :: InRuns(runs, p) <==> p in positions[..k]
    {
      var p := positions[k];
      ghost var before := runs;
      assert positions[..k + 1] == positions[..k] + [p];
      if runs != [] && Last(runs).last + 1 == p {
        runs := runs[..|runs| - 1] + [PositionRun(Last(runs).first, p)];
        RunGrows(before, p);
      } else {
        assert runs != [] ==> Last(runs).last < p;
        runs := runs + [PositionRun(p, p)];
        RunStarts(before, p);
      }
    }
    assert positions[..|positions|] == positions;
  }

  lemma RunGrows(rs: seq<PositionRun>, p: nat)
    requires Separated(rs) && rs != [] && Last(rs).last + 1 == p
    ensures var rs' := rs[..|rs| - 1] + [PositionRun(Last(rs).first, p)];
            Separated(rs') && forall q: nat :: InRuns(rs', q) <==> InRuns(rs, q) || q == p
  {
    var rs' := rs[..|rs| - 1] + [PositionRun(Last(rs).first, p)];
    forall q: nat ensures InRuns(rs', q) <==> InRuns(rs, q) || q == p {
      if i :| 0 <= i < |rs| && InRun(rs[i], q) {
        assert InRun(rs'[i], q);
      }
      if q == p {
        assert InRun(rs'[|rs| - 1], q);
      }
      if i :| 0 <= i < |rs'| && InRun(rs'[i], q) {
        assert q == p || InRun(rs[i], q);
      }
    }
  }

  lemma RunStarts(rs: seq<PositionRun>, p: nat)
    requires Separated(rs) && (rs != [] ==> Last(rs).last + 1 < p)
    ensures var rs' := rs + [PositionRun(p, p)];
            Separated(rs') && forall q: nat :: InRuns(rs', q) <==> InRuns(rs, q) || q == p
  {
    var rs' := rs + [PositionRun(p, p)];
    forall q: nat ensures InRuns(rs', q) <==> InRuns(rs, q) || q == p {
      if i :| 0 <= i < |rs| && InRun(rs[i], q) {
        assert InRun(rs'[i], q);
      }
      if q == p {
        assert InRun(rs'[|rs|], q);
      }
      if i :| 0 <= i < |rs'| && InRun(rs'[i], q) {
        assert q == p || InRun(rs[i], q);
      }
    }
  }

  /** Separated runs are maximal: neither neighbour of a run is in any of them. */
  lemma RunIsMaximal(rs: seq<PositionRun>, i: nat)
    requires Separated(rs) && i < |rs|
    ensures !InRuns(rs, rs[i].last + 1) && (rs[i].first > 0 ==> !InRuns(rs, rs[i].first - 1))
  {
  }

  /** Every run but the one a seed at `resumeAt` continues: the run that holds the position
      right before it. */
  method StrandedRuns(positions: seq<nat>, resumeAt: Option<nat>) returns (stranded: seq<PositionRun>)
    requires StrictlyAscending(positions)
    ensures Separated(stranded)
    ensures forall i | 0 <= i < |stranded| ::
              resumeAt.Some? && resumeAt.value > 0 ==> !InRun(stranded[i], resumeAt.value - 1)
    ensures forall p: nat ::
              InRuns(stranded, p) <==>
              p in positions && !(resumeAt.Some? && Bridged(positions, p, resumeAt.value))
  {
    hide InRuns, InRun, InKept, Bridged, Separated;
    var runs := ContiguousRuns(positions);
    stranded := [];
    NoneKept(runs, resumeAt);
    for k := 0 to |runs|
      invariant Kept(runs, k, resumeAt, stranded)
    {
      KeptStep(runs, k, resumeAt, stranded);
      if !Resumes(resumeAt, runs[k]) {
        stranded := stranded + [runs[k]];
      }
    }
    KeptAll(positions, runs, resumeAt, stranded);
  }

  /** `stranded` are the runs among the first `k` that no seed resumes. */
  ghost predicate Kept(runs: seq<PositionRun>, k: nat, resumeAt: Option<nat>, stranded: seq<PositionRun>) {
    && k <= |runs| && Separated(stranded)
    && (stranded != [] ==> k > 0 && Last(stranded).last <= runs[k - 1].last)
    && (forall i | 0 <= i < |stranded| :: !Resumes(resumeAt, stranded[i]))
    && (forall p: nat :: InRuns(stranded, p) <==> InKept(runs[..k], resumeAt, p))
  }

  lemma NoneKept(runs: seq<PositionRun>, resumeAt: Option<nat>)
    ensures Kept(runs, 0, resumeAt, [])
  {
  }

  lemma KeptStep(runs: seq<PositionRun>, k: nat, resumeAt: Option<nat>, stranded: seq<PositionRun>)
    requires k < |runs| && Separated(runs) && Kept(runs, k, resumeAt, stranded)
    ensures Kept(runs, k + 1, resumeAt, if Resumes(resumeAt, runs[k]) then stranded else stranded + [runs[k]])
  {
    hide InRuns, InKept;
    var run := runs[k];
    assert runs[..k + 1] == runs[..k] + [run];
    KeptSnoc(runs[..k], resumeAt, run);
    InRunsSnoc(stranded, run);
  }

  lemma KeptAll(positions: seq<nat>, runs: seq<PositionRun>, resumeAt: Option<nat>, stranded: seq<PositionRun>)
    requires Separated(runs) && (forall q: nat :: InRuns(runs, q) <==> q in positions)
    requires Kept(runs, |runs|, resumeAt, stranded)
    ensures Separated(stranded)
    ensures forall i | 0 <= i < |stranded| ::
              resumeAt.Some? && resumeAt.value > 0 ==> !InRun(stranded[i], resumeAt.value - 1)
    ensures forall p: nat ::
              InRuns(stranded, p) <==>
              p in positions && !(resumeAt.Some? && Bridged(positions, p, resumeAt.value))
  {
    hide InRuns, InKept, Bridged, Separated;
    assert runs[..|runs|] == runs;
    forall p: nat
      ensures InRuns(stranded, p) <==> p in positions && !(resumeAt.Some? && Bridged(positions, p, resumeAt.value))
    {
      KeptIsUnbridged(positions, runs, resumeAt, p);
    }
  }

  predicate Resumes(resumeAt: Option<nat>, run: PositionRun) {
    resumeAt.Some? && resumeAt.value > 0 && InRun(run, resumeAt.value - 1)
  }

  ghost predicate InKept(rs: seq<PositionRun>, resumeAt: Option<nat>, p: nat) {
    exists i | 0 <= i < |rs| :: InRun(rs[i], p) && !Resumes(resumeAt, rs[i])
  }

  lemma KeptSnoc(rs: seq<PositionRun>, resumeAt: Option<nat>, run: PositionRun)
    ensures forall p: nat ::
              InKept(rs + [run], resumeAt, p) <==> InKept(rs, resumeAt, p) || (InRun(run, p) && !Resumes(resumeAt, run))
  {
    forall p: nat
      ensures InKept(rs + [run], resumeAt, p) <==> InKept(rs, resumeAt, p) || (InRun(run, p) && !Resumes(resumeAt, run))
    {
      if i :| 0 <= i < |rs| && InRun(rs[i], p) && !Resumes(resumeAt, rs[i]) {
        assert (rs + [run])[i] == rs[i];
      }
      if InRun(run, p) && !Resumes(resumeAt, run) {
        assert (rs + [run])[|rs|] == run;
      }
    }
  }

  lemma InRunsSnoc(rs: seq<PositionRun>, run: PositionRun)
    ensures forall p: nat :: InRuns(rs + [run], p) <==> InRuns(rs, p) || InRun(run, p)
  {
    forall p: nat ensures InRuns(rs + [run], p) <==> InRuns(rs, p) || InRun(run, p) {
      if i :| 0 <= i < |rs| && InRun(rs[i], p) {
        assert (rs + [run])[i] == rs[i];
      }
      if InRun(run, p) {
        assert (rs + [run])[|rs|] == run;
      }
    }
  }

  /** `p` is buffered together with every position between it and the one right before
      `start`: one contiguous run holds both. */
  ghost predicate Bridged(positions: seq<nat>, p: nat, start: nat) {
    start > 0 && forall q: nat | Min(p, start - 1) <= q <= Max(p, start - 1) :: q in positions
  }

  lemma {:induction false} RunHoldsBetween(rs: seq<PositionRun>, i: nat, p: nat, n: nat)
    requires Separated(rs) && i < |rs| && InRun(rs[i], p)
    requires forall q: nat | p <= q <= p + n :: InRuns(rs, q)
    ensures InRun(rs[i], p + n)
  {
    if n > 0 {
      RunHoldsBetween(rs, i, p, n - 1);
      RunIsMaximal(rs, i);
      assert InRuns(rs, p + n);
    }
  }

  lemma KeptIsUnbridged(positions: seq<nat>, runs: seq<PositionRun>, resumeAt: Option<nat>, p: nat)
    requires Separated(runs) && forall q: nat :: InRuns(runs, q) <==> q in positions
    ensures InKept(runs, resumeAt, p) <==> p in positions && !(resumeAt.Some? && Bridged(positions, p, resumeAt.value))
  {
    if p in positions {
      assert InRuns(runs, p);
      var i :| 0 <= i < |runs| && InRun(runs[i], p);
      OneRun(runs, i, p);
      if resumeAt.Some? && resumeAt.value > 0 {
        var e := resumeAt.value - 1;
        if InRun(runs[i], e) {
          forall q: nat | Min(p, e) <= q <= Max(p, e) ensures q in positions {
            assert InRun(runs[i], q);
            assert InRuns(runs, q);
          }
        } else if Bridged(positions, p, resumeAt.value) {
          BridgedRun(positions, runs, i, p, e);
        }
      }
    }
  }

  lemma BridgedRun(positions: seq<nat>, runs: seq<PositionRun>, i: nat, p: nat, e: nat)
    requires Separated(runs) && forall q: nat :: InRuns(runs, q) <==> q in positions
    requires i < |runs| && InRun(runs[i], p) && Bridged(positions, p, e + 1)
    ensures InRun(runs[i], e)
  {
    if p <= e {
      RunHoldsBetween(runs, i, p, e - p);
    } else {
      assert InRuns(runs, e);
      var j :| 0 <= j < |runs| && InRun(runs[j], e);
      RunHoldsBetween(runs, j, e, p - e);
      OneRun(runs, i, p);
    }
  }

  lemma OneRun(rs: seq<PositionRun>, i: nat, p: nat)
    requires Separated(rs) && i < |rs| && InRun(rs[i], p)
    ensures forall j | 0 <= j < |rs| && InRun(rs[j], p) :: j == i
  {
  }

  // ── First seeders ────────────────────────────────────────────────────────

  predicate Seeds(start: Option<nat>, shard: nat) {
    start.Some? && ShardOf(start.value) == shard
  }

  ghost predicate AllKnownBefore(starts: seq<Option<nat>>, i: nat)
    requires i <= |starts|
  {
    forall j | 0 <= j < i :: starts[j].Some?
  }

  /** Range `i` is the first to seed in `shard`, as far as starts are known. */
  ghost predicate FirstSeed(starts: seq<Option<nat>>, shard: nat, i: nat) {
    i < |starts| && Seeds(starts[i], shard) && forall j | 0 <= j < i :: !Seeds(starts[j], shard)
  }

  /** What the table of claims says after the first `k` ranges: each shard's first seeder,
      withheld when an unknown start came before it. */
  ghost predicate ClaimsAre(starts: seq<Option<nat>>, k: nat, claimed: map<nat, Option<nat>>)
    requires k <= |starts|
  {
    && (forall j, shard: nat | 0 <= j < k && Seeds(starts[j], shard) :: shard in claimed)
    && (forall shard | shard in claimed :: ClaimIs(starts, k, shard, claimed[shard]))
  }

  ghost predicate ClaimIs(starts: seq<Option<nat>>, k: nat, shard: nat, claim: Option<nat>)
    requires k <= |starts|
  {
    exists i: nat ::
      i < k && FirstSeed(starts, shard, i) && claim == if AllKnownBefore(starts, i) then starts[i] else None
  }

  lemma ClaimStep(starts: seq<Option<nat>>, k: nat, claimed: map<nat, Option<nat>>, unknownBefore: bool)
    requires k < |starts| && ClaimsAre(starts, k, claimed) && (unknownBefore <==> !AllKnownBefore(starts, k))
    ensures starts[k].None? ==> ClaimsAre(starts, k + 1, claimed)
    ensures starts[k].Some? ==>
              var shard := ShardOf(starts[k].value);
              if shard in claimed then ClaimsAre(starts, k + 1, claimed)
              else ClaimsAre(starts, k + 1, claimed[shard := if unknownBefore then None else starts[k]])
  {
    hide ShardOf;
    forall shard: nat, claim: Option<nat> | ClaimIs(starts, k, shard, claim)
      ensures ClaimIs(starts, k + 1, shard, claim)
    {
      var i: nat :|
        i < k && FirstSeed(starts, shard, i) && claim == if AllKnownBefore(starts, i) then starts[i] else None;
    }
    if starts[k].Some? {
      var shard := ShardOf(starts[k].value);
      if shard !in claimed {
        assert FirstSeed(starts, shard, k);
        assert ClaimIs(starts, k + 1, shard, if unknownBefore then None else starts[k]);
      }
    }
  }

  lemma FirstSeedUnique(starts: seq<Option<nat>>, shard: nat, i: nat, j: nat)
    requires FirstSeed(starts, shard, i) && FirstSeed(starts, shard, j)
    ensures i == j
  {
  }

  /** Range `i` is the first to seed in `shard`, and every start before it is known. */
  ghost predicate Trusted(starts: seq<Option<nat>>, shard: nat, i: nat) {
    FirstSeed(starts, shard, i) && AllKnownBefore(starts, i)
  }

  lemma SeedersAreTrusted(starts: seq<Option<nat>>, claimed: map<nat, Option<nat>>, shard: nat)
    requires ClaimsAre(starts, |starts|, claimed)
    ensures shard in claimed && claimed[shard].Some? <==> exists i: nat :: Trusted(starts, shard, i)
    ensures forall i: nat | Trusted(starts, shard, i) :: shard in claimed && claimed[shard] == starts[i]
  {
    hide ShardOf;
    forall i: nat | Trusted(starts, shard, i) ensures shard in claimed && claimed[shard] == starts[i] {
      assert ClaimIs(starts, |starts|, shard, claimed[shard]);
      var m: nat :| m < |starts| && FirstSeed(starts, shard, m)
                    && claimed[shard] == if AllKnownBefore(starts, m) then starts[m] else None;
      FirstSeedUnique(starts, shard, i, m);
    }
    if shard in claimed && claimed[shard].Some? {
      assert ClaimIs(starts, |starts|, shard, claimed[shard]);
      var m: nat :| m < |starts| && FirstSeed(starts, shard, m)
                    && claimed[shard] == if AllKnownBefore(starts, m) then starts[m] else None;
      assert Trusted(starts, shard, m);
    }
  }

  /** Only the first range to seed in a shard is trusted to resume, and only when no range
      with an unknown start comes before it. */
  method FirstSeeders(starts: seq<Option<nat>>) returns (seeders: map<nat, nat>)
    ensures forall shard: nat :: shard in seeders <==> exists i: nat :: Trusted(starts, shard, i)
    ensures forall shard: nat, i: nat | Trusted(starts, shard, i) ::
              shard in seeders && Some(seeders[shard]) == starts[i]
  {
    hide ShardOf, ClaimsAre;
    var claimed: map<nat, Option<nat>> := map[];
    var unknownBefore := false;
    NoClaims(starts);
    for k := 0 to |starts|
      invariant unknownBefore <==> !AllKnownBefore(starts, k)
      invariant ClaimsAre(starts, k, claimed)
    {
      ClaimStep(starts, k, claimed, unknownBefore);
      match starts[k]
      case None => unknownBefore := true;
      case Some(position) =>
        if ShardOf(position) !in claimed {
          claimed := claimed[ShardOf(position) := if unknownBefore then None else Some(position)];
        }
    }
    seeders := map shard | shard in claimed && claimed[shard].Some? :: claimed[shard].value;
    forall shard: nat
      ensures shard in seeders <==> exists i: nat :: Trusted(starts, shard, i)
      ensures forall i: nat | Trusted(starts, shard, i) :: shard in seeders && Some(seeders[shard]) == starts[i]
    {
      SeedersAreTrusted(starts, claimed, shard);
    }
  }

  lemma NoClaims(starts: seq<Option<nat>>)
    ensures ClaimsAre(starts, 0, map[])
  {
  }

  /** `rows` are exactly the rows of the run: one per position, ascending and
      contiguous. */
  predicate RowsCoverRun(rows: seq<Row>, run: PositionRun) {
    && |rows| == run.last - run.first + 1
    && |rows| > 0 && rows[0].pos == run.first
    && forall i | 0 < i < |rows| :: rows[i - 1].pos + 1 == rows[i].pos
  }

  lemma {:induction false} CoverAt(rows: seq<Row>, run: PositionRun, i: nat)
    requires RowsCoverRun(rows, run) && i < |rows|
    ensures rows[i].pos == run.first + i
  {
    if i > 0 {
      CoverAt(rows, run, i - 1);
    }
  }

  lemma CoverIff(rows: seq<Row>, run: PositionRun)
    requires run.first <= run.last
    ensures RowsCoverRun(rows, run) <==>
            |rows| == run.last - run.first + 1 && forall i | 0 <= i < |rows| :: rows[i].pos == run.first + i
  {
    if RowsCoverRun(rows, run) {
      forall i | 0 <= i < |rows| ensures rows[i].pos == run.first + i {
        CoverAt(rows, run, i);
      }
    }
  }

  // ── Scanned stretches ────────────────────────────────────────────────────

  ghost predicate SortedByStart(rs: seq<Heights>) {
    forall i, j | 0 <= i < j < |rs| :: rs[i].start <= rs[j].start
  }

  function InsertByStart(r: Heights, rs: seq<Heights>): (out: seq<Heights>)
    ensures multiset(out) == multiset(rs) + multiset{r}
  {
    if rs == [] || r.start < rs[0].start then [r] + rs
    else
      assert rs == [rs[0]] + rs[1..];
      [rs[0]] + InsertByStart(r, rs[1..])
  }

  /** The source's sort by start; equal starts keep their order. */
  function SortByStart(rs: seq<Heights>): (out: seq<Heights>)
    ensures multiset(out) == multiset(rs)
    decreases |rs|
  {
    if rs == [] then []
    else
      assert rs == rs[..|rs| - 1] + [Last(rs)];
      InsertByStart(Last(rs), SortByStart(rs[..|rs| - 1]))
  }

  lemma {:induction false} InsertSorted(r: Heights, rs: seq<Heights>)
    requires SortedByStart(rs)
    ensures SortedByStart(InsertByStart(r, rs))
  {
    if rs != [] && r.start >= rs[0].start {
      InsertSorted(r, rs[1..]);
      var rest := InsertByStart(r, rs[1..]);
      forall i | 0 <= i < |rest| ensures rs[0].start <= rest[i].start {
        assert rest[i] in multiset(rest);
        assert rest[i] == r || rest[i] in multiset(rs[1..]);
      }
    }
  }

  lemma {:induction false} SortIsSorted(rs: seq<Heights>)
    ensures SortedByStart(SortByStart(rs))
    decreases |rs|
  {
    if rs != [] {
      SortIsSorted(rs[..|rs| - 1]);
      InsertSorted(Last(rs), SortByStart(rs[..|rs| - 1]));
    }
  }

  lemma SameHeights(a: seq<Heights>, b: seq<Heights>, h: nat)
    requires multiset(a) == multiset(b)
    ensures InSome(a, h) <==> InSome(b, h)
  {
    if i :| 0 <= i < |a| && a[i].Has(h) {
      assert a[i] in multiset(b);
    }
    if i :| 0 <= i < |b| && b[i].Has(h) {
      assert b[i] in multiset(a);
    }
  }

  ghost predicate WellFormed(rs: seq<Heights>) {
    forall i | 0 <= i < |rs| :: rs[i].start <= rs[i].end
  }

  /** The sweep over sorted ranges, `k` of them behind it and everything below `next`
      settled. */
  ghost predicate Swept(pending: seq<Heights>, k: nat, floor: nat, end: nat, next: nat, out: seq<Heights>) {
    && k <= |pending| && floor <= next
    && (forall i | 0 <= i < k :: pending[i].end <= next)
    && (forall i | 0 <= i < |out| :: floor <= out[i].start <= out[i].end <= end)
    && (forall h: nat :: InSome(out, h) ==> floor <= h < end && !InSome(pending, h))
    && (forall h: nat :: floor <= h < end && h < next && !InSome(pending, h) ==> InSome(out, h))
    && (WellFormed(pending) ==>
          && (forall i | 0 <= i < |out| :: out[i].end <= next)
          && (forall i, j | 0 <= i < j < |out| :: out[i].end <= out[j].start))
  }

  lemma InSomeSnoc(rs: seq<Heights>, r: Heights, h: nat)
    ensures InSome(rs + [r], h) <==> InSome(rs, h) || r.Has(h)
  {
    if i :| 0 <= i < |rs| && rs[i].Has(h) {
      assert (rs + [r])[i] == rs[i];
    }
    if r.Has(h) {
      assert (rs + [r])[|rs|] == r;
    }
  }

  /** The gap before a range is uncovered: ranges behind end below it, ranges ahead start
      above it. */
  lemma GapUncovered(pending: seq<Heights>, k: nat, next: nat, to: nat, h: nat)
    requires SortedByStart(pending) && k <= |pending| && (k < |pending| ==> to <= pending[k].start)
    requires forall i | 0 <= i < k :: pending[i].end <= next
    requires next <= h < to
    ensures !InSome(pending, h)
  {
  }

  lemma SweepGap(pending: seq<Heights>, k: nat, floor: nat, end: nat, next: nat, out: seq<Heights>, to: nat)
    requires Swept(pending, k, floor, end, next, out) && SortedByStart(pending)
    requires next <= to <= end && (k < |pending| ==> to <= pending[k].start)
    ensures Swept(pending, k, floor, end, to, out + [Heights(next, to)])
  {
    var out' := out + [Heights(next, to)];
    forall h: nat ensures InSome(out', h) <==> InSome(out, h) || next <= h < to {
      InSomeSnoc(out, Heights(next, to), h);
    }
    forall h: nat | next <= h < to ensures !InSome(pending, h) {
      GapUncovered(pending, k, next, to, h);
    }
  }

  /** Stepping over a range: its own heights need nothing. */
  lemma SweepRange(pending: seq<Heights>, k: nat, floor: nat, end: nat, next: nat, out: seq<Heights>)
    requires Swept(pending, k, floor, end, next, out) && k < |pending|
    requires next >= Min(pending[k].start, end)
    ensures Swept(pending, k + 1, floor, end, Max(next, pending[k].end), out)
  {
    forall h: nat | pending[k].Has(h) ensures InSome(pending, h) {
    }
  }

  /** Stepping over a range after the gap before it: the cursor goes to the range's end, or
      stays where it was when a malformed range ends before it. */
  lemma SweepAfterGap(pending: seq<Heights>, k: nat, floor: nat, end: nat, next: nat, out: seq<Heights>)
    requires k < |pending| && floor <= next <= Min(pending[k].start, end)
    requires Swept(pending, k, floor, end, Min(pending[k].start, end), out)
    requires forall i | 0 <= i < k :: pending[i].end <= next
    ensures Swept(pending, k + 1, floor, end, Max(next, pending[k].end), out)
  {
    forall h: nat | pending[k].Has(h) ensures InSome(pending, h) {
    }
  }

  /** The gaps the source's loop collects over sorted ranges. */
  function Sweep(sorted: seq<Heights>, next: nat, end: nat): seq<Heights> {
    if next >= end then []
    else if sorted == [] then [Heights(next, end)]
    else
      var r := sorted[0];
      (if r.start > next then [Heights(next, Min(r.start, end))] else []) + Sweep(sorted[1..], Max(next, r.end), end)
  }

  lemma SweepStep(sorted: seq<Heights>, k: nat, next: nat, end: nat)
    requires k < |sorted| && next < end
    ensures Sweep(sorted[k..], next, end)
            == (if sorted[k].start > next then [Heights(next, Min(sorted[k].start, end))] else [])
               + Sweep(sorted[k + 1..], Max(next, sorted[k].end), end)
  {
    assert sorted[k..][0] == sorted[k] && sorted[k..][1..] == sorted[k + 1..];
  }

  lemma SweepEnd(sorted: seq<Heights>, k: nat, next: nat, end: nat)
    requires k <= |sorted| && (next >= end || k == |sorted|)
    ensures Sweep(sorted[k..], next, end) == if next < end then [Heights(next, end)] else []
  {
  }

  /** The stretches that hold a height. */
  function NonEmpty(rs: seq<Heights>): seq<Heights> {
    if rs == [] then []
    else NonEmpty(rs[..|rs| - 1]) + (if Last(rs).start < Last(rs).end then [Last(rs)] else [])
  }

  lemma {:induction false} NonEmptyKeeps(rs: seq<Heights>, h: nat)
    ensures InSome(NonEmpty(rs), h) <==> InSome(rs, h)
  {
    if rs != [] {
      var front := rs[..|rs| - 1];
      NonEmptyKeeps(front, h);
      assert rs == front + [Last(rs)];
      InSomeSnoc(front, Last(rs), h);
      InSomeSnoc(NonEmpty(front), Last(rs), h);
      assert NonEmpty(front) + [] == NonEmpty(front);
    }
  }

  lemma {:induction false} NonEmptyOrdered(rs: seq<Heights>)
    ensures forall i | 0 <= i < |NonEmpty(rs)| :: NonEmpty(rs)[i] in rs && NonEmpty(rs)[i].start < NonEmpty(rs)[i].end
    ensures (forall i, j | 0 <= i < j < |rs| :: rs[i].end <= rs[j].start) ==> Stretches(NonEmpty(rs))
  {
    if rs != [] {
      var front := rs[..|rs| - 1];
      NonEmptyOrdered(front);
      if forall i, j | 0 <= i < j < |rs| :: rs[i].end <= rs[j].start {
        assert forall i, j | 0 <= i < j < |front| :: front[i].end <= front[j].start;
        forall r | r in front ensures r.end <= Last(rs).start {
          var i :| 0 <= i < |front| && front[i] == r;
          assert rs[i].end <= rs[|rs| - 1].start;
        }
      }
    }
  }

  /** From any point of the sweep, the rest of it settles everything below `end`. */
  lemma {:induction false} SweepSettles(
    sorted: seq<Heights>, k: nat, floor: nat, end: nat, next: nat, out: seq<Heights>)
    returns (m: nat, at: nat)
    requires SortedByStart(sorted) && Swept(sorted, k, floor, end, next, out)
    ensures at >= end && Swept(sorted, m, floor, end, at, out + Sweep(sorted[k..], next, end))
    decreases |sorted| - k
  {
    hide Swept, InSome, SortedByStart, Sweep;
    SweptBehind(sorted, k, floor, end, next, out);
    if next >= end || k == |sorted| {
      SweepEnd(sorted, k, next, end);
      m, at := k, Max(next, end);
      if next < end {
        SweepGap(sorted, k, floor, end, next, out, end);
      } else {
        assert out + [] == out;
      }
    } else {
      var r := sorted[k];
      SweepStep(sorted, k, next, end);
      var rest := Sweep(sorted[k + 1..], Max(next, r.end), end);
      if r.start > next {
        var gap := Heights(next, Min(r.start, end));
        SweepGap(sorted, k, floor, end, next, out, Min(r.start, end));
        SweepAfterGap(sorted, k, floor, end, next, out + [gap]);
        m, at := SweepSettles(sorted, k + 1, floor, end, Max(next, r.end), out + [gap]);
        assert out + [gap] + rest == out + ([gap] + rest);
      } else {
        SweepRange(sorted, k, floor, end, next, out);
        m, at := SweepSettles(sorted, k + 1, floor, end, Max(next, r.end), out);
        assert [] + rest == rest;
      }
    }
  }

  /** What the sweep collects from the floor: the heights no pending range covers, in order
      when the pending ranges are well formed. */
  lemma SweepIsRight(pending: seq<Heights>, floor: nat, end: nat)
    ensures var ss := NonEmpty(Sweep(SortByStart(pending), floor, end));
            && (forall h: nat :: InSome(ss, h) <==> floor <= h < end && !InSome(pending, h))
            && (forall i | 0 <= i < |ss| :: floor <= ss[i].start < ss[i].end <= end)
            && (WellFormed(pending) ==> Stretches(ss))
  {
    hide Swept, InSome, Sweep, NonEmpty, SortedByStart;
    var sorted := SortByStart(pending);
    SortIsSorted(pending);
    SweptNothing(sorted, floor, end);
    var m, at := SweepSettles(sorted, 0, floor, end, floor, []);
    assert sorted[0..] == sorted && [] + Sweep(sorted, floor, end) == Sweep(sorted, floor, end);
    SweptAll(pending, sorted, m, floor, end, at, Sweep(sorted, floor, end));
  }

  lemma SweepFacts(pending: seq<Heights>, floor: nat, end: nat, ss: seq<Heights>)
    requires ss == NonEmpty(Sweep(SortByStart(pending), floor, end))
    ensures forall h: nat :: InSome(ss, h) <==> floor <= h < end && !InSome(pending, h)
    ensures forall i | 0 <= i < |ss| :: floor <= ss[i].start < ss[i].end <= end
    ensures WellFormed(pending) ==> Stretches(ss)
  {
    SweepIsRight(pending, floor, end);
  }

  /** The heights of `floor..end` that no pending range covers, as ascending disjoint
      stretches when the pending ranges are well formed. */
  method ScannedStretches(pending: seq<Heights>, floor: nat, end: nat) returns (stretches: seq<Heights>)
    ensures forall h: nat :: InSome(stretches, h) <==> floor <= h < end && !InSome(pending, h)
    ensures forall i | 0 <= i < |stretches| :: floor <= stretches[i].start < stretches[i].end <= end
    ensures WellFormed(pending) ==> Stretches(stretches)
    ensures stretches == NonEmpty(Sweep(SortByStart(pending), floor, end))
  {
    hide InSome, SortByStart, NonEmpty, Sweep, WellFormed, Stretches;
    var sorted := SortByStart(pending);
    var out: seq<Heights> := [];
    var next: nat := floor;
    var k := 0;
    assert sorted[0..] == sorted;
    while k < |sorted| && next < end
      invariant 0 <= k <= |sorted|
      invariant out + Sweep(sorted[k..], next, end) == Sweep(sorted, floor, end)
    {
      var r := sorted[k];
      SweepStep(sorted, k, next, end);
      ghost var rest := Sweep(sorted[k + 1..], Max(next, r.end), end);
      if r.start > next {
        var gap := Heights(next, Min(r.start, end));
        assert out + ([gap] + rest) == (out + [gap]) + rest;
        out := out + [gap];
      } else {
        assert out + ([] + rest) == out + rest;
      }
      next := Max(next, r.end);
      k := k + 1;
    }
    SweepEnd(sorted, k, next, end);
    if next < end {
      out := out + [Heights(next, end)];
    }
    assert out == Sweep(sorted, floor, end);
    stretches := NonEmpty(out);
    SweepFacts(pending, floor, end, stretches);
  }

  lemma SweptNothing(pending: seq<Heights>, floor: nat, end: nat)
    ensures Swept(pending, 0, floor, end, floor, [])
  {
  }

  lemma SweptBehind(pending: seq<Heights>, k: nat, floor: nat, end: nat, next: nat, out: seq<Heights>)
    requires Swept(pending, k, floor, end, next, out)
    ensures k <= |pending| && floor <= next && forall i | 0 <= i < k :: pending[i].end <= next
  {
  }

  lemma SweptAll(
    pending: seq<Heights>, sorted: seq<Heights>, k: nat, floor: nat, end: nat, next: nat, out: seq<Heights>)
    requires Swept(sorted, k, floor, end, next, out) && next >= end && multiset(pending) == multiset(sorted)
    ensures forall h: nat :: InSome(NonEmpty(out), h) <==> floor <= h < end && !InSome(pending, h)
    ensures forall i | 0 <= i < |NonEmpty(out)| :: floor <= NonEmpty(out)[i].start < NonEmpty(out)[i].end <= end
    ensures WellFormed(pending) ==> Stretches(NonEmpty(out))
  {
    forall h: nat ensures InSome(NonEmpty(out), h) <==> floor <= h < end && !InSome(pending, h) {
      NonEmptyKeeps(out, h);
      SameHeights(pending, sorted, h);
    }
    NonEmptyOrdered(out);
    if WellFormed(pending) {
      forall i | 0 <= i < |sorted| ensures sorted[i].start <= sorted[i].end {
        assert sorted[i] in multiset(pending);
      }
    }
  }

  /** No range that starts past where the sweep has got to, at `next`, ends before the gap
      in front of it does. */
  predicate NoLeap(sorted: seq<Heights>, next: nat, end: nat) {
    next < end && sorted != [] ==>
      var r := sorted[0];
      && (r.start > next ==> r.end >= Min(r.start, end))
      && NoLeap(sorted[1..], Max(next, r.end), end)
  }

  ghost predicate InOrder(ss: seq<Heights>) {
    forall i, j | 0 <= i < j < |ss| :: ss[i].end <= ss[j].start
  }

  /** The gaps of a sweep hold a height each and start where it stands or later. */
  lemma {:induction false} GapsFrom(sorted: seq<Heights>, next: nat, end: nat)
    ensures forall i | 0 <= i < |Sweep(sorted, next, end)| ::
              next <= Sweep(sorted, next, end)[i].start < Sweep(sorted, next, end)[i].end
  {
    if next < end && sorted != [] {
      GapsFrom(sorted[1..], Max(next, sorted[0].end), end);
    }
  }

  /** Ranges that all start past it leave a gap right where the sweep stands. */
  lemma GapAtNext(sorted: seq<Heights>, next: nat, end: nat)
    requires next < end && (sorted != [] ==> sorted[0].start > next)
    ensures Sweep(sorted, next, end) != [] && Sweep(sorted, next, end)[0].start == next
  {
  }

  lemma InOrderCons(g: Heights, ss: seq<Heights>)
    ensures InOrder([g] + ss) <==> InOrder(ss) && forall i | 0 <= i < |ss| :: g.end <= ss[i].start
  {
    var all := [g] + ss;
    if InOrder(all) {
      forall i, j | 0 <= i < j < |ss| ensures ss[i].end <= ss[j].start {
        assert all[i + 1].end <= all[j + 1].start;
      }
      forall i | 0 <= i < |ss| ensures g.end <= ss[i].start {
        assert all[0].end <= all[i + 1].start;
      }
    }
  }

  lemma {:induction false} OrderedIffNoLeap(sorted: seq<Heights>, next: nat, end: nat)
    requires SortedByStart(sorted)
    ensures InOrder(Sweep(sorted, next, end)) <==> NoLeap(sorted, next, end)
    decreases |sorted|
  {
    hide InOrder, SortedByStart;
    if next >= end || sorted == [] {
      AtMostOne(Sweep(sorted, next, end));
    } else {
      var r, rest := sorted[0], sorted[1..];
      var next' := Max(next, r.end);
      SortedTail(sorted);
      OrderedIffNoLeap(rest, next', end);
      GapsFrom(rest, next', end);
      var gaps := Sweep(rest, next', end);
      assert [] + gaps == gaps;
      if r.start > next {
        InOrderCons(Heights(next, Min(r.start, end)), gaps);
        if r.end < Min(r.start, end) {
          GapAtNext(rest, next', end);
        }
      }
    }
  }

  lemma AtMostOne(ss: seq<Heights>)
    requires |ss| <= 1
    ensures InOrder(ss)
  {
  }

  lemma SortedTail(sorted: seq<Heights>)
    requires SortedByStart(sorted) && sorted != []
    ensures SortedByStart(sorted[1..])
    ensures |sorted| > 1 ==> sorted[0].start <= sorted[1..][0].start
  {
  }

  lemma {:induction false} NonEmptyAll(ss: seq<Heights>)
    requires forall i | 0 <= i < |ss| :: ss[i].start < ss[i].end
    ensures NonEmpty(ss) == ss
  {
    if ss != [] {
      NonEmptyAll(ss[..|ss| - 1]);
    }
  }

  /** The stretches are ascending and disjoint exactly when no pending range leaps back over
      the gap in front of it. */
  lemma StretchesIff(pending: seq<Heights>, floor: nat, end: nat)
    ensures Stretches(NonEmpty(Sweep(SortByStart(pending), floor, end))) <==> NoLeap(SortByStart(pending), floor, end)
  {
    hide SortByStart, Sweep, NonEmpty, NoLeap;
    var sorted := SortByStart(pending);
    SortIsSorted(pending);
    OrderedIffNoLeap(sorted, floor, end);
    GapsFrom(sorted, floor, end);
    NonEmptyAll(Sweep(sorted, floor, end));
  }

  /** A range that ends before it starts makes two stretches overlap; the heights are right
      all the same. */
  lemma MalformedOverlaps()
    ensures Sweep([Heights(20, 10)], 0, 30) == [Heights(0, 20), Heights(10, 30)]
    ensures !Stretches(NonEmpty([Heights(0, 20), Heights(10, 30)]))
  {
    var a, b := Heights(0, 20), Heights(10, 30);
    assert [Heights(20, 10)][1..] == [];
    assert [a, b][..1] == [a] && [a][..0] == [];
    assert NonEmpty([a]) == NonEmpty([]) + [a] == [a];
    assert NonEmpty([a, b]) == NonEmpty([a]) + [b] == [a, b];
    assert [a, b][0].end > [a, b][1].start;
  }

  /** The whole decision: a scanned block that holds any position of the run, one in
      `floor..end` that no pending range covers, is in a returned range, and no block outside
      the scanned ones is. */
  lemma SweepRescansRun(
    size: Sizes, run: PositionRun, pending: seq<Heights>, floor: nat, end: nat, ss: seq<Heights>, h: nat)
    requires Stretches(ss) && Monotone(size) && run.first <= run.last
    requires forall g: nat :: InSome(ss, g) <==> floor <= g < end && !InSome(pending, g)
    ensures floor <= h < end && !InSome(pending, h) && HoldsSome(size, run, h) ==> InSome(Rescans(size, run, ss), h)
    ensures InSome(Rescans(size, run, ss), h) ==> floor <= h < end && !InSome(pending, h)
  {
    if InSome(ss, h) && HoldsSome(size, run, h) {
      var p: nat :| run.first <= p <= run.last && Holds(size, h, p);
      RescansSound(size, run, ss, h, p);
    }
    RescansAreReached(size, run, ss, h);
  }

  /** Position `p` is in block `h`. */
  predicate Holds(size: Sizes, h: nat, p: nat) {
    p < size(h) && (h > 0 ==> size(h - 1) <= p)
  }

  ghost predicate HoldsSome(size: Sizes, run: PositionRun, h: nat) {
    exists p: nat :: run.first <= p <= run.last && Holds(size, h, p)
  }

  /** Scanned stretches, then the walks over them: the ranges to scan again for a run. The
      pending ranges may be any that leave the stretches in order. */
  method PlanRescans(
    pending: seq<Heights>, floor: nat, end: nat, known: nat -> Option<nat>, run: PositionRun, ghost size: Sizes)
    returns (r: Option<seq<Heights>>)
    requires NoLeap(SortByStart(pending), floor, end)
    requires Monotone(size) && Agrees(known, size) && run.first <= run.last
    ensures r.Some? ==> Stretches(r.value)
    ensures r.Some? ==> forall h: nat ::
              floor <= h < end && !InSome(pending, h) && HoldsSome(size, run, h) ==> InSome(r.value, h)
    ensures r.Some? ==> forall h: nat :: InSome(r.value, h) ==> floor <= h < end && !InSome(pending, h)
    ensures var ss := NonEmpty(Sweep(SortByStart(pending), floor, end));
            && Stretches(ss)
            && (r.Some? <==> NewestPlaces(known, size, run, ss) || OldestPlaces(known, size, run, ss))
            && (r.Some? ==> r.value == Rescans(size, run, ss))
    ensures (forall h | floor <= h < end :: known(h).Some?) ==> r.Some?
  {
    hide NoLeap, SortByStart, Stretches, InSome, HoldsSome, Monotone, Agrees, Rescans, NonEmpty, Sweep, AllKnown,
         NewestPlaces, OldestPlaces, Inside, WellFormed;
    var ss := ScannedStretches(pending, floor, end);
    StretchesIff(pending, floor, end);
    r := RescansFor(known, run, ss, size);
    RescansOrdered(size, run, ss);
    forall h: nat
      ensures floor <= h < end && !InSome(pending, h) && HoldsSome(size, run, h) ==> InSome(Rescans(size, run, ss), h)
      ensures InSome(Rescans(size, run, ss), h) ==> floor <= h < end && !InSome(pending, h)
    {
      SweepRescansRun(size, run, pending, floor, end, ss, h);
    }
    if forall h | floor <= h < end :: known(h).Some? {
      KnownInSpan(known, floor, end, ss);
    }
  }

  lemma KnownInSpan(known: nat -> Option<nat>, floor: nat, end: nat, ss: seq<Heights>)
    requires forall h | floor <= h < end :: known(h).Some?
    requires forall i | 0 <= i < |ss| :: floor <= ss[i].start < ss[i].end <= end
    ensures AllKnown(known, ss)
  {
  }
}
