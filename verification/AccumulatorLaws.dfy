/** What the shard accumulator keeps over every range: nothing is lost, duplicated or
    reordered, a clean close carries its shard's complete row set, and a shard with an owned
    note is built in the call that found it and never grafted. */
module AccumulatorLaws {
  import opened Prelude
  import opened GraftBuffer
  import opened Accumulation

  // ── Reading a list of actions ────────────────────────────────────────────

  /** The rows an action hands to the tree: built, or closed for the graft verdict. */
  function Out(a: FeedAction): seq<Row> {
    if a.Buffer? then [] else a.rows
  }

  function Emitted(acts: seq<FeedAction>): seq<Row> {
    if acts == [] then [] else Emitted(acts[..|acts| - 1]) + Out(Last(acts))
  }

  /** The rows buffered for one shard. */
  function BufferedFor(acts: seq<FeedAction>, shard: nat): seq<Row> {
    if acts == [] then []
    else
      BufferedFor(acts[..|acts| - 1], shard)
      + (if Last(acts).Buffer? && Last(acts).rows != [] && ShardOf(Last(acts).rows[0].pos) == shard then Last(acts).rows
         else [])
  }

  lemma ActionsSnoc(acts: seq<FeedAction>, a: FeedAction, shard: nat)
    ensures Emitted(acts + [a]) == Emitted(acts) + Out(a)
    ensures BufferedFor(acts + [a], shard)
            == BufferedFor(acts, shard)
               + (if a.Buffer? && a.rows != [] && ShardOf(a.rows[0].pos) == shard then a.rows else [])
  {
    assert (acts + [a])[..|acts|] == acts;
  }

  /** The rows of one shard, in order. */
  function InShard(rows: seq<Row>, shard: nat): seq<Row> {
    if rows == [] then []
    else InShard(rows[..|rows| - 1], shard) + (if ShardOf(Last(rows).pos) == shard then [Last(rows)] else [])
  }

  lemma {:induction false} InShardSame(a: seq<Row>, b: seq<Row>, shard: nat)
    requires forall i | 0 <= i < |b| :: ShardOf(b[i].pos) == shard
    ensures InShard(a + b, shard) == InShard(a, shard) + b
    decreases |b|
  {
    if b == [] {
      assert a + b == a;
    } else {
      assert (a + b)[..|a + b| - 1] == a + b[..|b| - 1];
      InShardSame(a, b[..|b| - 1], shard);
      assert b == b[..|b| - 1] + [Last(b)];
    }
  }

  lemma {:induction false} InShardOther(a: seq<Row>, b: seq<Row>, shard: nat)
    requires forall i | 0 <= i < |b| :: ShardOf(b[i].pos) != shard
    ensures InShard(a + b, shard) == InShard(a, shard)
    decreases |b|
  {
    if b == [] {
      assert a + b == a;
    } else {
      assert (a + b)[..|a + b| - 1] == a + b[..|b| - 1];
      InShardOther(a, b[..|b| - 1], shard);
    }
  }

  lemma {:induction false} InShardNone(rows: seq<Row>, shard: nat)
    requires forall i | 0 <= i < |rows| :: ShardOf(rows[i].pos) != shard
    ensures InShard(rows, shard) == []
  {
    InShardOther([], rows, shard);
    assert [] + rows == rows;
  }

  // ── The ledger of a range ────────────────────────────────────────────────

  /** The rows are one contiguous run that ends right before `next`. */
  ghost predicate RunBefore(rows: seq<Row>, next: nat) {
    && |rows| <= next
    && forall i | 0 <= i < |rows| :: rows[i].pos == next - |rows| + i
  }

  ghost predicate SeedOk(start: nat, resume: seq<Row>) {
    && RunBefore(resume, start)
    && forall i | 0 <= i < |resume| :: ShardOf(resume[i].pos) == ShardOf(start)
  }

  ghost predicate OpenOk(o: OpenShard, next: nat) {
    && RunBefore(o.rows, next)
    && (forall i | 0 <= i < |o.rows| :: ShardOf(o.rows[i].pos) == o.index)
    && o.index * SHARD <= next <= (o.index + 1) * SHARD
  }

  /** Every clean close carries all rows seen for its shard, and only those. */
  ghost predicate ClosesComplete(acts: seq<FeedAction>, seen: seq<Row>, next: nat) {
    forall i | 0 <= i < |acts| && acts[i].CloseCleanShard? ::
      acts[i].rows == InShard(seen, acts[i].shard) && (acts[i].shard + 1) * SHARD <= next
  }

  /** While a shard is buffering, memory holds all rows seen for it: the resumed run, if it
      is the seed's shard, and everything buffered since. */
  ghost predicate BufferingOk(o: OpenShard, seen: seq<Row>, acts: seq<FeedAction>, start: nat, resume: seq<Row>) {
    !o.passthrough ==>
      && o.rows == InShard(seen, o.index)
      && o.rows == (if o.index == ShardOf(start) then resume else []) + BufferedFor(acts, o.index)
  }

  /** Buffered rows of shards not entered yet: none. */
  ghost predicate NoneAhead(acts: seq<FeedAction>, shard: nat) {
    forall i | 0 <= i < |acts| && acts[i].Buffer? && acts[i].rows != [] :: ShardOf(acts[i].rows[0].pos) <= shard
  }

  ghost predicate Ledger(start: nat, resume: seq<Row>, o: OpenShard, next: nat, seen: seq<Row>, acts: seq<FeedAction>) {
    && start <= next && ShardOf(start) <= o.index
    && RunBefore(seen, next)
    && OpenOk(o, next)
    && Emitted(acts) + o.rows == seen
    && ClosesComplete(acts, seen, next)
    && BufferingOk(o, seen, acts, start, resume)
    && NoneAhead(acts, o.index)
  }

  lemma SeedLedger(start: nat, resume: seq<Row>, flag: bool)
    requires SeedOk(start, resume)
    ensures Ledger(start, resume, OpenShard(ShardOf(start), resume, flag), start, resume, [])
  {
    InShardSame([], resume, ShardOf(start));
    assert [] + resume == resume && resume + [] == resume;
  }

  lemma {:induction false} BufferedForNone(acts: seq<FeedAction>, below: nat, shard: nat)
    requires NoneAhead(acts, below) && below < shard
    ensures BufferedFor(acts, shard) == []
  {
    if acts != [] {
      BufferedForNone(acts[..|acts| - 1], below, shard);
      assert Last(acts) == acts[|acts| - 1];
    }
  }

  lemma TransitionAtBoundary(index: nat, next: nat)
    requires index * SHARD <= next <= (index + 1) * SHARD
    ensures ShardOf(next) == index || (next == (index + 1) * SHARD && ShardOf(next) == index + 1)
  {
  }

  lemma EnterConserves(o: OpenShard, shard: nat, seen: seq<Row>, acts: seq<FeedAction>)
    requires Emitted(acts) + o.rows == seen && o.index != shard
    ensures Emitted(acts + Enter(o, shard).acts) + [] == seen
  {
    hide ShardOf;
    var closing := Enter(o, shard).acts;
    if closing == [] {
      assert acts + closing == acts;
    } else {
      ActionsSnoc(acts, closing[0], 0);
    }
  }

  lemma EnterCloses(o: OpenShard, shard: nat, seen: seq<Row>, acts: seq<FeedAction>, next: nat)
    requires ClosesComplete(acts, seen, next) && o.index != shard && (o.index + 1) * SHARD <= next
    requires !o.passthrough ==> o.rows == InShard(seen, o.index)
    ensures ClosesComplete(acts + Enter(o, shard).acts, seen, next)
  {
    hide InShard;
  }

  lemma EnterBuffering(
    o: OpenShard, shard: nat, seen: seq<Row>, acts: seq<FeedAction>, start: nat, resume: seq<Row>, next: nat)
    requires RunBefore(seen, next) && next == shard * SHARD && o.index < shard && ShardOf(start) <= o.index
    requires NoneAhead(acts, o.index)
    ensures NoneAhead(acts + Enter(o, shard).acts, shard)
    ensures BufferingOk(OpenShard(shard, [], false), seen, acts + Enter(o, shard).acts, start, resume)
  {
    InShardNone(seen, shard);
    assert NoneAhead(acts + Enter(o, shard).acts, o.index);
    BufferedForNone(acts + Enter(o, shard).acts, o.index, shard);
  }

  lemma BufferingIsComplete(o: OpenShard, seen: seq<Row>, acts: seq<FeedAction>, start: nat, resume: seq<Row>)
    requires BufferingOk(o, seen, acts, start, resume) && !o.passthrough
    ensures o.rows == InShard(seen, o.index)
  {
  }

  lemma OpenBounds(o: OpenShard, next: nat)
    requires OpenOk(o, next)
    ensures o.index * SHARD <= next <= (o.index + 1) * SHARD
  {
  }

  lemma OpenFresh(shard: nat, next: nat)
    requires next == shard * SHARD
    ensures OpenOk(OpenShard(shard, [], false), next)
  {
  }

  /** A transition closes the shard it leaves with everything seen for it. */
  lemma EnterLedger(start: nat, resume: seq<Row>, o: OpenShard, next: nat, seen: seq<Row>, acts: seq<FeedAction>)
    requires Ledger(start, resume, o, next, seen, acts)
    ensures var e := Enter(o, ShardOf(next));
            e.open.index == ShardOf(next) && Ledger(start, resume, e.open, next, seen, acts + e.acts)
  {
    hide ShardOf, BufferingOk, ClosesComplete, OpenOk, Emitted, NoneAhead, RunBefore, InShard;
    OpenBounds(o, next);
    TransitionAtBoundary(o.index, next);
    var shard := ShardOf(next);
    if o.index == shard {
      assert acts + Enter(o, shard).acts == acts;
    } else {
      if !o.passthrough {
        BufferingIsComplete(o, seen, acts, start, resume);
      }
      EnterConserves(o, shard, seen, acts);
      EnterCloses(o, shard, seen, acts, next);
      EnterBuffering(o, shard, seen, acts, start, resume, next);
      OpenFresh(shard, next);
    }
  }

  lemma SpanRows(next: nat, items: seq<Leaf>, index: nat)
    requires index * SHARD <= next && next + |items| <= (index + 1) * SHARD
    ensures |RowsAt(next, items)| == |items|
    ensures forall i | 0 <= i < |items| :: ShardOf(RowsAt(next, items)[i].pos) == index
  {
  }

  lemma AbsorbCloses(acts: seq<FeedAction>, a: FeedAction, seen: seq<Row>, span: seq<Row>, next: nat, next': nat)
    requires ClosesComplete(acts, seen, next) && !a.CloseCleanShard? && next <= next'
    requires forall i | 0 <= i < |span| :: span[i].pos >= next
    ensures ClosesComplete(acts + [a], seen + span, next')
  {
    forall i | 0 <= i < |acts + [a]| && (acts + [a])[i].CloseCleanShard?
      ensures (acts + [a])[i].rows == InShard(seen + span, (acts + [a])[i].shard)
      ensures ((acts + [a])[i].shard + 1) * SHARD <= next'
    {
      InShardOther(seen, span, acts[i].shard);
    }
  }

  lemma AbsorbOpen(o: OpenShard, next: nat, items: seq<Leaf>, noted: bool)
    requires OpenOk(o, next) && next + |items| <= (o.index + 1) * SHARD
    ensures OpenOk(Absorbed(o, RowsAt(next, items), noted), next + |items|)
  {
    SpanRows(next, items, o.index);
  }

  lemma BufferedSnoc(acts: seq<FeedAction>, span: seq<Row>, shard: nat)
    requires span != [] && ShardOf(span[0].pos) == shard
    ensures BufferedFor(acts + [Buffer(span)], shard) == BufferedFor(acts, shard) + span
  {
    ActionsSnoc(acts, Buffer(span), shard);
  }

  lemma AbsorbBuffering(
    start: nat, resume: seq<Row>, o: OpenShard, next: nat, seen: seq<Row>, acts: seq<FeedAction>, items: seq<Leaf>,
    noted: bool)
    requires BufferingOk(o, seen, acts, start, resume) && o.index * SHARD <= next
    requires items != [] && next + |items| <= (o.index + 1) * SHARD
    ensures var o', act := Absorbed(o, RowsAt(next, items), noted), AbsorbAction(o, RowsAt(next, items), noted);
            BufferingOk(o', seen + RowsAt(next, items), acts + [act], start, resume)
  {
    hide InShard, BufferedFor, RowsAt, ShardOf;
    var span := RowsAt(next, items);
    if !o.passthrough && !noted {
      SpanRows(next, items, o.index);
      BufferedSnoc(acts, span, o.index);
      InShardSame(seen, span, o.index);
      var head, buffered := if o.index == ShardOf(start) then resume else [], BufferedFor(acts, o.index);
      assert (head + buffered) + span == head + (buffered + span);
    }
  }

  lemma AbsorbConserves(o: OpenShard, seen: seq<Row>, acts: seq<FeedAction>, span: seq<Row>, noted: bool)
    requires Emitted(acts) + o.rows == seen
    ensures var o', act := Absorbed(o, span, noted), AbsorbAction(o, span, noted);
            Emitted(acts + [act]) + o'.rows == seen + span
  {
    var o', act := Absorbed(o, span, noted), AbsorbAction(o, span, noted);
    ActionsSnoc(acts, act, 0);
    var sent := Emitted(acts);
    assert sent + (o.rows + span) == (sent + o.rows) + span;
    assert sent + [] == sent && sent + (o.rows + span) + [] == sent + (o.rows + span);
  }

  lemma AbsorbAhead(o: OpenShard, acts: seq<FeedAction>, next: nat, items: seq<Leaf>, noted: bool)
    requires NoneAhead(acts, o.index)
    requires o.index * SHARD <= next && next + |items| <= (o.index + 1) * SHARD
    ensures NoneAhead(acts + [AbsorbAction(o, RowsAt(next, items), noted)], o.index)
  {
    SpanRows(next, items, o.index);
  }

  lemma AbsorbRun(seen: seq<Row>, next: nat, items: seq<Leaf>)
    requires RunBefore(seen, next)
    ensures RunBefore(seen + RowsAt(next, items), next + |items|)
    ensures forall i | 0 <= i < |RowsAt(next, items)| :: RowsAt(next, items)[i].pos >= next
  {
  }

  lemma AbsorbLedger(
    start: nat, resume: seq<Row>, o: OpenShard, next: nat, seen: seq<Row>, acts: seq<FeedAction>, items: seq<Leaf>,
    noted: bool)
    requires Ledger(start, resume, o, next, seen, acts)
    requires items != [] && next + |items| <= (o.index + 1) * SHARD
    ensures var span := RowsAt(next, items);
            Ledger(start, resume, Absorbed(o, span, noted), next + |items|, seen + span,
                   acts + [AbsorbAction(o, span, noted)])
  {
    hide BufferingOk, ClosesComplete, OpenOk, Emitted, NoneAhead, RunBefore, RowsAt, ShardOf;
    var span := RowsAt(next, items);
    OpenBounds(o, next);
    AbsorbOpen(o, next, items, noted);
    AbsorbBuffering(start, resume, o, next, seen, acts, items, noted);
    AbsorbConserves(o, seen, acts, span, noted);
    AbsorbRun(seen, next, items);
    AbsorbCloses(acts, AbsorbAction(o, span, noted), seen, span, next, next + |items|);
    AbsorbAhead(o, acts, next, items, noted);
  }

  lemma NoRows(pos: nat)
    ensures RowsAt(pos, []) == []
  {
  }

  lemma RowsAtSplit(pos: nat, items: seq<Leaf>, len: nat)
    requires len <= |items|
    ensures RowsAt(pos, items) == RowsAt(pos, items[..len]) + RowsAt(pos + len, items[len..])
    ensures |RowsAt(pos, items[..len])| == len && |RowsAt(pos, items)| == |items|
  {
  }

  lemma SpanLedger(
    start: nat, resume: seq<Row>, o: OpenShard, next: nat, seen: seq<Row>, acts: seq<FeedAction>, items: seq<Leaf>,
    noted: bool)
    requires Ledger(start, resume, o, next, seen, acts)
    requires items != [] && next + |items| <= (ShardOf(next) + 1) * SHARD
    ensures var fed := TakeSpan(o, next, RowsAt(next, items), noted);
            Ledger(start, resume, fed.open, next + |items|, seen + RowsAt(next, items), acts + fed.acts)
  {
    hide ShardOf, Ledger, RowsAt, Enter, Absorbed, AbsorbAction;
    EnterLedger(start, resume, o, next, seen, acts);
    var e := Enter(o, ShardOf(next));
    AbsorbLedger(start, resume, e.open, next, seen, acts + e.acts, items, noted);
    var act := AbsorbAction(e.open, RowsAt(next, items), noted);
    assert acts + e.acts + [act] == acts + (e.acts + [act]);
  }

  /** A feed extends the ledger by exactly the rows fed. */
  lemma {:induction false} FeedLedger(
    start: nat, resume: seq<Row>, o: OpenShard, next: nat, seen: seq<Row>, acts: seq<FeedAction>, items: seq<Leaf>,
    notes: seq<nat>)
    requires Ledger(start, resume, o, next, seen, acts)
    ensures var fed := FeedFrom(o, next, items, notes);
            Ledger(start, resume, fed.open, next + |items|, seen + RowsAt(next, items), acts + fed.acts)
    decreases |items|
  {
    hide RowsAt, Ledger, TakeSpan, HasNote, ShardOf;
    if items == [] {
      NoRows(next);
      assert seen + [] == seen && acts + [] == acts;
    } else {
      var len := SpanLen(next, |items|);
      RowsAtSplit(next, items, len);
      var span := RowsAt(next, items[..len]);
      var noted := HasNote(notes, next, next + len);
      SpanLedger(start, resume, o, next, seen, acts, items[..len], noted);
      var head := TakeSpan(o, next, span, noted);
      FeedLedger(start, resume, head.open, next + len, seen + span, acts + head.acts, items[len..], notes);
      var rest := FeedFrom(head.open, next + len, items[len..], notes).acts;
      assert acts + head.acts + rest == acts + (head.acts + rest);
      assert seen + span + RowsAt(next + len, items[len..]) == seen + RowsAt(next, items);
    }
  }

  // ── Whole ranges ─────────────────────────────────────────────────────────

  /** All items fed by a list of calls. */
  function ItemsOf(calls: seq<Call>): seq<Leaf> {
    if calls == [] then [] else ItemsOf(calls[..|calls| - 1]) + Last(calls).items
  }

  /** Everything a range saw: the resumed run, then what it was fed. */
  function Seen(start: nat, resume: seq<Row>, calls: seq<Call>): seq<Row> {
    resume + RowsAt(start, ItemsOf(calls))
  }

  lemma {:induction false} RangeLedger(start: nat, resume: seq<Row>, flag: bool, calls: seq<Call>)
    requires SeedOk(start, resume)
    ensures var seed := Seed(start, resume, flag);
            var s := After(seed, calls);
            && s.next == start + |ItemsOf(calls)|
            && Ledger(start, resume, s.open, s.next, Seen(start, resume, calls), Actions(seed, calls))
    decreases |calls|
  {
    hide FeedFrom, RowsAt, Ledger, ShardOf;
    var seed := Seed(start, resume, flag);
    if calls == [] {
      SeedLedger(start, resume, flag);
      NoRows(start);
      assert resume + [] == resume;
    } else {
      var before := calls[..|calls| - 1];
      RangeLedger(start, resume, flag, before);
      var mid := After(seed, before);
      var seen, acts := Seen(start, resume, before), Actions(seed, before);
      FeedLedger(start, resume, mid.open, mid.next, seen, acts, Last(calls).items, Last(calls).notes);
      SeenSnoc(start, resume, calls);
    }
  }

  lemma SeenSnoc(start: nat, resume: seq<Row>, calls: seq<Call>)
    requires calls != []
    ensures var before := calls[..|calls| - 1];
            Seen(start, resume, calls)
            == Seen(start, resume, before) + RowsAt(start + |ItemsOf(before)|, Last(calls).items)
  {
    var before := calls[..|calls| - 1];
    var all := ItemsOf(calls);
    RowsAtSplit(start, all, |ItemsOf(before)|);
    assert all[..|ItemsOf(before)|] == ItemsOf(before) && all[|ItemsOf(before)|..] == Last(calls).items;
  }

  /** Conservation: over any feeds and the finish, what is built or closed, in emission
      order, is the resumed run followed by every fed row, each position once and ascending
      by one. */
  lemma Conservation(start: nat, resume: seq<Row>, flag: bool, calls: seq<Call>)
    requires SeedOk(start, resume)
    ensures var seed := Seed(start, resume, flag);
            var s := After(seed, calls);
            && Emitted(Actions(seed, calls) + Finish(s)) == Seen(start, resume, calls)
            && RunBefore(Seen(start, resume, calls), s.next)
  {
    RangeLedger(start, resume, flag, calls);
    var seed := Seed(start, resume, flag);
    var s, acts := After(seed, calls), Actions(seed, calls);
    if Finish(s) == [] {
      assert acts + Finish(s) == acts;
    } else {
      ActionsSnoc(acts, Finish(s)[0], 0);
    }
  }

  /** A clean close carries its shard's rows of the whole range, all of them and no other
      shard's. */
  lemma ClosesAreComplete(start: nat, resume: seq<Row>, flag: bool, calls: seq<Call>, i: nat)
    requires SeedOk(start, resume)
    requires i < |Actions(Seed(start, resume, flag), calls)|
    requires Actions(Seed(start, resume, flag), calls)[i].CloseCleanShard?
    ensures var a := Actions(Seed(start, resume, flag), calls)[i];
            && a.rows == InShard(Seen(start, resume, calls), a.shard)
            && forall j | 0 <= j < |a.rows| :: ShardOf(a.rows[j].pos) == a.shard
  {
    RangeLedger(start, resume, flag, calls);
    InShardOnly(Seen(start, resume, calls), Actions(Seed(start, resume, flag), calls)[i].shard);
  }

  lemma {:induction false} InShardOnly(rows: seq<Row>, shard: nat)
    ensures forall j | 0 <= j < |InShard(rows, shard)| :: ShardOf(InShard(rows, shard)[j].pos) == shard
  {
    if rows != [] {
      InShardOnly(rows[..|rows| - 1], shard);
    }
  }

  /** While a shard is still buffering, its rows in memory are the resumed run plus every
      row buffered for it, at most a shard's worth. */
  lemma BufferingInMemory(start: nat, resume: seq<Row>, flag: bool, calls: seq<Call>)
    requires SeedOk(start, resume)
    ensures var seed := Seed(start, resume, flag);
            var o := After(seed, calls).open;
            !o.passthrough ==>
              && o.rows == (if o.index == ShardOf(start) then resume else [])
                           + BufferedFor(Actions(seed, calls), o.index)
              && |o.rows| <= SHARD
  {
    RangeLedger(start, resume, flag, calls);
    var s := After(Seed(start, resume, flag), calls);
    var rows := s.open.rows;
    assert rows != [] ==> ShardOf(rows[0].pos) == s.open.index && rows[0].pos == s.next - |rows|;
  }

  // ── Owned notes ──────────────────────────────────────────────────────────

  /** The shard can no longer be closed clean. */
  predicate Barred(o: OpenShard, shard: nat) {
    o.index > shard || (o.index == shard && o.passthrough)
  }

  ghost predicate NeverCloses(acts: seq<FeedAction>, shard: nat) {
    forall i | 0 <= i < |acts| :: !(acts[i].CloseCleanShard? && acts[i].shard == shard)
  }

  lemma NeverClosesJoin(a: seq<FeedAction>, b: seq<FeedAction>, shard: nat)
    requires NeverCloses(a, shard) && NeverCloses(b, shard)
    ensures NeverCloses(a + b, shard)
  {
  }

  lemma NoActions(shard: nat)
    ensures NeverCloses([], shard)
  {
  }

  lemma SpanBars(o: OpenShard, pos: nat, span: seq<Row>, noted: bool, shard: nat)
    requires o.index <= ShardOf(pos)
    ensures var fed := TakeSpan(o, pos, span, noted);
            && fed.open.index == ShardOf(pos)
            && (Barred(o, shard) ==> Barred(fed.open, shard) && NeverCloses(fed.acts, shard))
            && (shard == ShardOf(pos) && noted ==> Barred(fed.open, shard))
            && (shard >= ShardOf(pos) ==> NeverCloses(fed.acts, shard))
  {
  }

  lemma {:induction false} BarredStays(o: OpenShard, pos: nat, items: seq<Leaf>, notes: seq<nat>, shard: nat)
    requires Barred(o, shard) && o.index <= ShardOf(pos)
    ensures var fed := FeedFrom(o, pos, items, notes);
            && fed.open.index <= ShardOf(pos + |items|)
            && Barred(fed.open, shard) && NeverCloses(fed.acts, shard)
    decreases |items|
  {
    hide TakeSpan, NeverCloses, HasNote, RowsAt, Barred;
    if items == [] {
      NoActions(shard);
    } else {
      var len := SpanLen(pos, |items|);
      var span, noted := RowsAt(pos, items[..len]), HasNote(notes, pos, pos + len);
      SpanBars(o, pos, span, noted, shard);
      var head := TakeSpan(o, pos, span, noted);
      BarredStays(head.open, pos + len, items[len..], notes, shard);
      NeverClosesJoin(head.acts, FeedFrom(head.open, pos + len, items[len..], notes).acts, shard);
    }
  }

  /** A call that finds an owned note closes the note's shard to the graft. */
  lemma {:induction false} NoteBars(o: OpenShard, pos: nat, items: seq<Leaf>, notes: seq<nat>, p: nat)
    requires p in notes && pos <= p < pos + |items| && o.index <= ShardOf(pos)
    ensures var fed := FeedFrom(o, pos, items, notes);
            && fed.open.index <= ShardOf(pos + |items|)
            && Barred(fed.open, ShardOf(p)) && NeverCloses(fed.acts, ShardOf(p))
    decreases |items|
  {
    hide TakeSpan, NeverCloses, RowsAt, Barred;
    var len := SpanLen(pos, |items|);
    var span, noted := RowsAt(pos, items[..len]), HasNote(notes, pos, pos + len);
    SpanBars(o, pos, span, noted, ShardOf(p));
    var head := TakeSpan(o, pos, span, noted);
    if p < pos + len {
      assert ShardOf(p) == ShardOf(pos) && noted;
      BarredStays(head.open, pos + len, items[len..], notes, ShardOf(p));
    } else {
      NoteBars(head.open, pos + len, items[len..], notes, p);
    }
    NeverClosesJoin(head.acts, FeedFrom(head.open, pos + len, items[len..], notes).acts, ShardOf(p));
  }

  ghost predicate BuildsRow(acts: seq<FeedAction>, row: Row) {
    exists i | 0 <= i < |acts| :: acts[i].Build? && row in acts[i].rows
  }

  lemma BuildsRowJoin(a: seq<FeedAction>, b: seq<FeedAction>, row: Row)
    requires BuildsRow(a, row) || BuildsRow(b, row)
    ensures BuildsRow(a + b, row)
  {
    if i :| 0 <= i < |a| && a[i].Build? && row in a[i].rows {
      assert (a + b)[i] == a[i];
    } else {
      var i :| 0 <= i < |b| && b[i].Build? && row in b[i].rows;
      assert (a + b)[|a| + i] == b[i];
    }
  }

  lemma NotedSpanBuilds(o: OpenShard, pos: nat, span: seq<Row>, i: nat)
    requires i < |span|
    ensures BuildsRow(TakeSpan(o, pos, span, true).acts, span[i])
  {
    var e := Enter(o, ShardOf(pos));
    var act := AbsorbAction(e.open, span, true);
    assert act.rows[|e.open.rows| + i] == span[i];
    assert (e.acts + [act])[|e.acts|] == act;
  }

  /** An owned note's row is in a build emitted by the call that found it. */
  lemma {:induction false} NoteBuilds(o: OpenShard, pos: nat, items: seq<Leaf>, notes: seq<nat>, p: nat)
    requires p in notes && pos <= p < pos + |items|
    ensures BuildsRow(FeedFrom(o, pos, items, notes).acts, RowsAt(pos, items)[p - pos])
    decreases |items|
  {
    hide RowsAt, TakeSpan, BuildsRow, ShardOf;
    var len := SpanLen(pos, |items|);
    RowsAtSplit(pos, items, len);
    var span, noted := RowsAt(pos, items[..len]), HasNote(notes, pos, pos + len);
    var head := TakeSpan(o, pos, span, noted);
    var rest := FeedFrom(head.open, pos + len, items[len..], notes).acts;
    var row := RowsAt(pos, items)[p - pos];
    if p < pos + len {
      assert noted && row == span[p - pos];
      NotedSpanBuilds(o, pos, span, p - pos);
      BuildsRowJoin(head.acts, rest, row);
    } else {
      assert row == RowsAt(pos + len, items[len..])[p - (pos + len)];
      NoteBuilds(head.open, pos + len, items[len..], notes, p);
      BuildsRowJoin(head.acts, rest, row);
    }
  }

  lemma {:induction false} BarredForever(s: AccState, calls: seq<Call>, shard: nat)
    requires Barred(s.open, shard) && s.open.index <= ShardOf(s.next)
    ensures var s' := After(s, calls);
            && Barred(s'.open, shard) && s'.open.index <= ShardOf(s'.next)
            && NeverCloses(Actions(s, calls), shard)
    decreases |calls|
  {
    hide FeedFrom, ShardOf, Barred;
    if calls != [] {
      var front := calls[..|calls| - 1];
      BarredForever(s, front, shard);
      var mid := After(s, front);
      BarredStays(mid.open, mid.next, Last(calls).items, Last(calls).notes, shard);
    }
  }

  /** From any state of a range: the call that reports the note builds its row, and
      neither it nor any later call closes the note's shard. */
  lemma NoteSafetyFrom(s: AccState, call: Call, later: seq<Call>, p: nat)
    requires s.open.index <= ShardOf(s.next)
    requires p in call.notes && s.next <= p < s.next + |call.items|
    ensures BuildsRow(FeedActions(s, call), RowsAt(s.next, call.items)[p - s.next])
    ensures NeverCloses(FeedActions(s, call), ShardOf(p)) && NeverCloses(Actions(Feed(s, call), later), ShardOf(p))
  {
    hide FeedFrom, RowsAt, BuildsRow, NeverCloses, ShardOf;
    NoteBuilds(s.open, s.next, call.items, call.notes, p);
    NoteBars(s.open, s.next, call.items, call.notes, p);
    BarredForever(Feed(s, call), later, ShardOf(p));
  }

  lemma {:induction false} AfterAppend(s: AccState, a: seq<Call>, b: seq<Call>)
    ensures After(s, a + b) == After(After(s, a), b)
    decreases |b|
  {
    if b == [] {
      assert a + b == a;
    } else {
      assert (a + b)[..|a + b| - 1] == a + b[..|b| - 1];
      AfterAppend(s, a, b[..|b| - 1]);
    }
  }

  lemma ActionsStep(s: AccState, calls: seq<Call>, call: Call)
    ensures Actions(s, calls + [call]) == Actions(s, calls) + FeedActions(After(s, calls), call)
  {
    hide FeedActions, After;
    assert (calls + [call])[..|calls|] == calls;
  }

  lemma {:induction false} ActionsAppend(s: AccState, a: seq<Call>, b: seq<Call>)
    ensures Actions(s, a + b) == Actions(s, a) + Actions(After(s, a), b)
    decreases |b|
  {
    hide FeedActions, After, Actions;
    if b == [] {
      assert a + b == a;
      NothingDone(After(s, a));
    } else {
      var front, call := b[..|b| - 1], Last(b);
      assert a + b == (a + front) + [call] && b == front + [call];
      ActionsAppend(s, a, front);
      AfterAppend(s, a, front);
      ActionsStep(s, a + front, call);
      ActionsStep(After(s, a), front, call);
    }
  }

  lemma NothingDone(s: AccState)
    ensures Actions(s, []) == []
  {
  }

  /** Note safety over a whole range: the row of an owned note is built by the very call
      that reports it, and its shard is never closed clean, before or after. */
  lemma NoteSafety(start: nat, resume: seq<Row>, flag: bool, before: seq<Call>, call: Call, later: seq<Call>, p: nat)
    requires SeedOk(start, resume) && p in call.notes
    requires var at := After(Seed(start, resume, flag), before).next; at <= p < at + |call.items|
    ensures var s := After(Seed(start, resume, flag), before);
            BuildsRow(FeedActions(s, call), RowsAt(s.next, call.items)[p - s.next])
    ensures NeverCloses(Actions(Seed(start, resume, flag), before + ([call] + later)), ShardOf(p))
  {
    hide Ledger, After, Feed, FeedActions, RowsAt, Seen, BuildsRow, SeedOk, NeverCloses, ShardOf, Actions, Seed;
    var seed := Seed(start, resume, flag);
    var s := After(seed, before);
    RangeLedger(start, resume, flag, before);
    LedgerBefore(start, resume, s.open, s.next, Seen(start, resume, before), Actions(seed, before), p);
    NoteSafetyFrom(s, call, later, p);
    OneCall(s, call);
    ActionsAppend(s, [call], later);
    ActionsAppend(seed, before, [call] + later);
    NeverClosesJoin(FeedActions(s, call), Actions(Feed(s, call), later), ShardOf(p));
    NeverClosesJoin(Actions(seed, before), Actions(s, [call] + later), ShardOf(p));
  }

  lemma OneCall(s: AccState, call: Call)
    ensures After(s, [call]) == Feed(s, call) && Actions(s, [call]) == FeedActions(s, call)
  {
    assert [call][..0] == [];
  }

  /** Nothing closed so far is the shard of a position still to come. */
  lemma LedgerBefore(
    start: nat, resume: seq<Row>, o: OpenShard, next: nat, seen: seq<Row>, acts: seq<FeedAction>, p: nat)
    requires Ledger(start, resume, o, next, seen, acts) && next <= p
    ensures NeverCloses(acts, ShardOf(p)) && o.index <= ShardOf(next)
  {
    TransitionAtBoundary(o.index, next);
  }

  // ── Where a range stands, from its inputs ────────────────────────────────

  lemma SpanEnd(pos: nat, len: nat)
    requires 0 < len && pos + len <= (ShardOf(pos) + 1) * SHARD
    ensures ShardOf(pos + len - 1) == ShardOf(pos)
  {
  }

  /** A feed leaves open the shard of its last item. */
  lemma {:induction false} FeedIndex(o: OpenShard, pos: nat, items: seq<Leaf>, notes: seq<nat>)
    requires items != []
    ensures FeedFrom(o, pos, items, notes).open.index == ShardOf(pos + |items| - 1)
    decreases |items|
  {
    hide ShardOf, RowsAt, HasNote, AbsorbAction;
    var len := SpanLen(pos, |items|);
    if len == |items| {
      assert items[len..] == [];
      SpanEnd(pos, len);
    } else {
      var head := TakeSpan(o, pos, RowsAt(pos, items[..len]), HasNote(notes, pos, pos + len));
      FeedIndex(head.open, pos + len, items[len..], notes);
    }
  }

  lemma {:induction false} RangeIndex(start: nat, resume: seq<Row>, flag: bool, calls: seq<Call>)
    ensures var s := After(Seed(start, resume, flag), calls);
            && s.next == start + |ItemsOf(calls)|
            && s.open.index == if ItemsOf(calls) == [] then ShardOf(start) else ShardOf(s.next - 1)
    decreases |calls|
  {
    hide ShardOf, FeedFrom;
    if calls != [] {
      var before, call := calls[..|calls| - 1], Last(calls);
      RangeIndex(start, resume, flag, before);
      var mid := After(Seed(start, resume, flag), before);
      if call.items == [] {
        FeedNothing(mid.open, mid.next, call.notes);
      } else {
        FeedIndex(mid.open, mid.next, call.items, call.notes);
      }
    }
  }

  lemma BoundaryIff(next: nat)
    requires next > 0
    ensures ShardOf(next - 1) == ShardOf(next) <==> next % SHARD != 0
  {
  }

  /** The open shard is the one of the next position, unless what was fed ends exactly on a
      shard boundary. */
  lemma OffBoundaryIff(start: nat, resume: seq<Row>, flag: bool, calls: seq<Call>)
    ensures var s := After(Seed(start, resume, flag), calls);
            s.open.index == ShardOf(s.next) <==> s.next % SHARD != 0 || ItemsOf(calls) == []
  {
    hide ShardOf, After, Seed;
    RangeIndex(start, resume, flag, calls);
    if ItemsOf(calls) != [] {
      BoundaryIff(start + |ItemsOf(calls)|);
    }
  }

  ghost predicate HoldsShard(rows: seq<Row>, shard: nat) {
    exists j | 0 <= j < |rows| :: ShardOf(rows[j].pos) == shard
  }

  /** Some build holds rows of the shard. */
  ghost predicate BuildsIn(acts: seq<FeedAction>, shard: nat) {
    exists i | 0 <= i < |acts| :: acts[i].Build? && HoldsShard(acts[i].rows, shard)
  }

  lemma BuildsInJoin(a: seq<FeedAction>, b: seq<FeedAction>, shard: nat)
    ensures BuildsIn(a + b, shard) <==> BuildsIn(a, shard) || BuildsIn(b, shard)
  {
    hide HoldsShard;
    if i :| 0 <= i < |a| && a[i].Build? && HoldsShard(a[i].rows, shard) {
      assert (a + b)[i] == a[i];
    }
    if i :| 0 <= i < |b| && b[i].Build? && HoldsShard(b[i].rows, shard) {
      assert (a + b)[|a| + i] == b[i];
    }
  }

  lemma BuildsInOne(a: FeedAction, own: nat, shard: nat)
    requires a.Build? && forall j | 0 <= j < |a.rows| :: ShardOf(a.rows[j].pos) == own
    ensures BuildsIn([a], shard) <==> shard == own && a.rows != []
  {
    hide ShardOf;
    if shard == own && a.rows != [] {
      assert ShardOf(a.rows[0].pos) == shard;
      assert [a][0] == a;
    }
  }

  lemma BuildsInNone(acts: seq<FeedAction>, shard: nat)
    requires forall i | 0 <= i < |acts| :: !acts[i].Build?
    ensures !BuildsIn(acts, shard)
  {
  }

  /** The shard's content is in the store: it was there when the range began, or the range
      built some of it. */
  ghost predicate StoreHolds(start: nat, flag: bool, acts: seq<FeedAction>, shard: nat) {
    (flag && shard == ShardOf(start)) || BuildsIn(acts, shard)
  }

  /** A shard passes rows straight through exactly when the store holds content of it, and
      nothing is built ahead of the open shard. */
  ghost predicate BuiltOk(start: nat, flag: bool, o: OpenShard, acts: seq<FeedAction>) {
    && ShardOf(start) <= o.index
    && (o.passthrough <==> StoreHolds(start, flag, acts, o.index))
    && (forall shard: nat | shard > o.index :: !BuildsIn(acts, shard))
  }

  lemma EnterBuilt(start: nat, flag: bool, o: OpenShard, next: nat, acts: seq<FeedAction>)
    requires OpenOk(o, next) && BuiltOk(start, flag, o, acts)
    ensures var e := Enter(o, ShardOf(next));
            OpenOk(e.open, next) && e.open.index == ShardOf(next) && BuiltOk(start, flag, e.open, acts + e.acts)
  {
    hide ShardOf, BuildsIn;
    OpenBounds(o, next);
    TransitionAtBoundary(o.index, next);
    var e := Enter(o, ShardOf(next));
    if o.index == ShardOf(next) {
      assert acts + e.acts == acts;
    } else {
      OpenFresh(ShardOf(next), next);
      forall shard: nat | shard > o.index ensures !BuildsIn(acts + e.acts, shard) {
        BuildsInJoin(acts, e.acts, shard);
        if e.acts != [] && e.acts[0].Build? {
          BuildsInOne(e.acts[0], o.index, shard);
        } else {
          BuildsInNone(e.acts, shard);
        }
      }
    }
  }

  lemma AbsorbBuilt(
    start: nat, flag: bool, o: OpenShard, next: nat, acts: seq<FeedAction>, items: seq<Leaf>, noted: bool)
    requires OpenOk(o, next) && BuiltOk(start, flag, o, acts)
    requires items != [] && next + |items| <= (o.index + 1) * SHARD
    ensures var span := RowsAt(next, items);
            && OpenOk(Absorbed(o, span, noted), next + |items|)
            && BuiltOk(start, flag, Absorbed(o, span, noted), acts + [AbsorbAction(o, span, noted)])
  {
    hide ShardOf, BuildsIn, RowsAt;
    var span := RowsAt(next, items);
    var act := AbsorbAction(o, span, noted);
    SpanRows(next, items, o.index);
    AbsorbOpen(o, next, items, noted);
    forall shard: nat
      ensures BuildsIn(acts + [act], shard) <==> BuildsIn(acts, shard) || (act.Build? && shard == o.index)
    {
      BuildsInJoin(acts, [act], shard);
      if act.Build? {
        BuildsInOne(act, o.index, shard);
      } else {
        BuildsInNone([act], shard);
      }
    }
  }

  lemma SpanBuilt(start: nat, flag: bool, o: OpenShard, next: nat, acts: seq<FeedAction>, items: seq<Leaf>, noted: bool)
    requires OpenOk(o, next) && BuiltOk(start, flag, o, acts)
    requires items != [] && next + |items| <= (ShardOf(next) + 1) * SHARD
    ensures var fed := TakeSpan(o, next, RowsAt(next, items), noted);
            OpenOk(fed.open, next + |items|) && BuiltOk(start, flag, fed.open, acts + fed.acts)
  {
    hide ShardOf, OpenOk, BuiltOk, RowsAt, Enter, Absorbed, AbsorbAction;
    EnterBuilt(start, flag, o, next, acts);
    var e := Enter(o, ShardOf(next));
    AbsorbBuilt(start, flag, e.open, next, acts + e.acts, items, noted);
    var act := AbsorbAction(e.open, RowsAt(next, items), noted);
    assert acts + e.acts + [act] == acts + (e.acts + [act]);
  }

  lemma {:induction false} FeedBuilt(
    start: nat, flag: bool, o: OpenShard, next: nat, acts: seq<FeedAction>, items: seq<Leaf>, notes: seq<nat>)
    requires OpenOk(o, next) && BuiltOk(start, flag, o, acts)
    ensures var fed := FeedFrom(o, next, items, notes);
            OpenOk(fed.open, next + |items|) && BuiltOk(start, flag, fed.open, acts + fed.acts)
    decreases |items|
  {
    hide RowsAt, OpenOk, BuiltOk, TakeSpan, HasNote, ShardOf;
    if items == [] {
      assert acts + [] == acts;
    } else {
      var len := SpanLen(next, |items|);
      var noted := HasNote(notes, next, next + len);
      SpanBuilt(start, flag, o, next, acts, items[..len], noted);
      var head := TakeSpan(o, next, RowsAt(next, items[..len]), noted);
      FeedBuilt(start, flag, head.open, next + len, acts + head.acts, items[len..], notes);
      var rest := FeedFrom(head.open, next + len, items[len..], notes).acts;
      assert acts + head.acts + rest == acts + (head.acts + rest);
    }
  }

  lemma SeedBuilt(start: nat, resume: seq<Row>, flag: bool)
    requires SeedOk(start, resume)
    ensures OpenOk(Seed(start, resume, flag).open, start) && BuiltOk(start, flag, Seed(start, resume, flag).open, [])
  {
  }

  /** Over any feeds, the open shard passes rows through exactly when the store holds
      content of it. */
  lemma {:induction false} PassthroughIff(start: nat, resume: seq<Row>, flag: bool, calls: seq<Call>)
    requires SeedOk(start, resume)
    ensures var seed := Seed(start, resume, flag);
            var s := After(seed, calls);
            OpenOk(s.open, s.next) && BuiltOk(start, flag, s.open, Actions(seed, calls))
    decreases |calls|
  {
    hide FeedFrom, ShardOf, OpenOk, BuiltOk, SeedOk;
    if calls == [] {
      SeedBuilt(start, resume, flag);
    } else {
      var before := calls[..|calls| - 1];
      PassthroughIff(start, resume, flag, before);
      var seed := Seed(start, resume, flag);
      var mid := After(seed, before);
      FeedBuilt(start, flag, mid.open, mid.next, Actions(seed, before), Last(calls).items, Last(calls).notes);
    }
  }
}
