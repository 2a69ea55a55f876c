/** What the buffer table holds of a range: after any committed calls, exactly the rows that
    are still pending in the open shard. Every row that was built or closed is gone. */
module PendingRows {
  import opened Prelude
  import opened GraftBuffer
  import opened Accumulation
  import opened AccumulatorLaws
  import opened CrashResume

  /** What each build and each close hands on is one contiguous run of one shard. */
  ghost predicate Solid(acts: seq<FeedAction>) {
    forall i, j | 0 <= i < |acts| && !acts[i].Buffer? && 0 <= j < |acts[i].rows| ::
      acts[i].rows[j].pos == acts[i].rows[0].pos + j && ShardOf(acts[i].rows[j].pos) == ShardOf(acts[i].rows[0].pos)
  }

  lemma SolidJoin(a: seq<FeedAction>, b: seq<FeedAction>)
    requires Solid(a) && Solid(b)
    ensures Solid(a + b)
  {
    hide ShardOf;
  }

  lemma SolidOne(act: FeedAction, o: OpenShard, next: nat)
    requires OpenOk(o, next) && (act.Buffer? || act.rows == o.rows)
    ensures Solid([act])
  {
    hide ShardOf;
  }

  lemma EnterSolid(o: OpenShard, next: nat)
    requires OpenOk(o, next)
    ensures Solid(Enter(o, ShardOf(next)).acts)
  {
    hide ShardOf, OpenOk, Solid;
    var acts := Enter(o, ShardOf(next)).acts;
    if acts != [] {
      SolidOne(acts[0], o, next);
      assert acts == [acts[0]];
    } else {
      NothingSolid();
    }
  }

  lemma NothingSolid()
    ensures Solid([])
  {
  }

  lemma AbsorbSolid(o: OpenShard, next: nat, items: seq<Leaf>, noted: bool)
    requires OpenOk(o, next) && next + |items| <= (o.index + 1) * SHARD
    ensures Solid([AbsorbAction(o, RowsAt(next, items), noted)])
  {
    hide ShardOf, OpenOk, Solid, RowsAt;
    var span := RowsAt(next, items);
    var buffering := o.(passthrough := false);
    SameRows(o, buffering, next);
    AbsorbOpen(buffering, next, items, false);
    SolidOne(AbsorbAction(o, span, noted), Absorbed(buffering, span, false), next + |items|);
  }

  lemma SameRows(a: OpenShard, b: OpenShard, next: nat)
    requires OpenOk(a, next) && a.rows == b.rows && a.index == b.index
    ensures OpenOk(b, next)
  {
  }

  /** A call hands on, or keeps pending, what was pending and what it was fed, in order. */
  ghost predicate CallShape(o: OpenShard, fed: Fed, rows: seq<Row>) {
    Solid(fed.acts) && Emitted(fed.acts) + fed.open.rows == o.rows + rows
  }

  lemma SpanCallShape(o: OpenShard, pos: nat, items: seq<Leaf>, noted: bool)
    requires OpenOk(o, pos) && items != [] && pos + |items| <= (ShardOf(pos) + 1) * SHARD
    ensures var fed := TakeSpan(o, pos, RowsAt(pos, items), noted);
            CallShape(o, fed, RowsAt(pos, items)) && OpenOk(fed.open, pos + |items|)
  {
    hide ShardOf, OpenOk, Solid, RowsAt, Enter, Absorbed, AbsorbAction, Emitted;
    var span := RowsAt(pos, items);
    var e := Enter(o, ShardOf(pos));
    SpanEnters(o, pos);
    EnterSolid(o, pos);
    AbsorbSolid(e.open, pos, items, noted);
    SolidJoin(e.acts, [AbsorbAction(e.open, span, noted)]);
    AbsorbOpen(e.open, pos, items, noted);
    EnterHandsOn(o, ShardOf(pos));
    AbsorbConserves(e.open, o.rows, e.acts, span, noted);
  }

  lemma EnterHandsOn(o: OpenShard, shard: nat)
    ensures var e := Enter(o, shard); Emitted(e.acts) + e.open.rows == o.rows
  {
    NothingEmitted();
    if o.index != shard {
      assert [] + o.rows == o.rows;
      EnterConserves(o, shard, o.rows, []);
      assert [] + Enter(o, shard).acts == Enter(o, shard).acts;
    }
  }

  lemma NothingEmitted()
    ensures Emitted([]) == []
  {
  }

  lemma {:induction false} EmittedJoin(a: seq<FeedAction>, b: seq<FeedAction>)
    ensures Emitted(a + b) == Emitted(a) + Emitted(b)
    decreases |b|
  {
    hide Emitted;
    NothingEmitted();
    if b == [] {
      assert a + b == a && Emitted(a) + [] == Emitted(a);
    } else {
      var front, last := b[..|b| - 1], Last(b);
      assert a + b == (a + front) + [last] && b == front + [last];
      EmittedJoin(a, front);
      ActionsSnoc(a + front, last, 0);
      ActionsSnoc(front, last, 0);
    }
  }

  lemma CallShapeJoin(o: OpenShard, head: Fed, rest: Fed, a: seq<Row>, b: seq<Row>)
    requires CallShape(o, head, a) && CallShape(head.open, rest, b)
    ensures CallShape(o, Fed(rest.open, head.acts + rest.acts), a + b)
  {
    hide Emitted, Solid;
    SolidJoin(head.acts, rest.acts);
    EmittedJoin(head.acts, rest.acts);
    var x, y := Emitted(head.acts), Emitted(rest.acts);
    assert x + y + rest.open.rows == x + (y + rest.open.rows);
    assert x + (head.open.rows + b) == x + head.open.rows + b;
    assert o.rows + (a + b) == o.rows + a + b;
  }

  lemma {:induction false} FeedCallShape(o: OpenShard, pos: nat, items: seq<Leaf>, notes: seq<nat>)
    requires OpenOk(o, pos)
    ensures var fed := FeedFrom(o, pos, items, notes);
            CallShape(o, fed, RowsAt(pos, items)) && OpenOk(fed.open, pos + |items|)
    decreases |items|
  {
    hide ShardOf, RowsAt, OpenOk, TakeSpan, CallShape, HasNote;
    if items == [] {
      NoRows(pos);
      NothingFed(o);
    } else {
      var len := SpanLen(pos, |items|);
      var span, noted := RowsAt(pos, items[..len]), HasNote(notes, pos, pos + len);
      RowsAtSplit(pos, items, len);
      SpanCallShape(o, pos, items[..len], noted);
      var head := TakeSpan(o, pos, span, noted);
      FeedCallShape(head.open, pos + len, items[len..], notes);
      var rest := FeedFrom(head.open, pos + len, items[len..], notes);
      CallShapeJoin(o, head, rest, span, RowsAt(pos + len, items[len..]));
    }
  }

  lemma NothingFed(o: OpenShard)
    ensures CallShape(o, Fed(o, []), [])
  {
    assert [] + o.rows == o.rows + [];
  }

  lemma {:induction false} EmittedFrom(acts: seq<FeedAction>, k: nat) returns (i: nat, j: nat)
    requires k < |Emitted(acts)|
    ensures i < |acts| && !acts[i].Buffer? && j < |acts[i].rows| && acts[i].rows[j] == Emitted(acts)[k]
  {
    var front, last := acts[..|acts| - 1], Last(acts);
    if k < |Emitted(front)| {
      i, j := EmittedFrom(front, k);
    } else {
      i, j := |acts| - 1, k - |Emitted(front)|;
    }
  }

  /** Whatever a call hands on is deleted from the table. */
  lemma HandedOnIsDeleted(acts: seq<FeedAction>, k: nat)
    requires Solid(acts) && k < |Emitted(acts)|
    ensures var p := Emitted(acts)[k].pos; Deletes(acts, (ShardOf(p), p))
  {
    hide ShardOf, Emitted;
    var i, j := EmittedFrom(acts, k);
    var rows := acts[i].rows;
    assert rows[j].pos == rows[0].pos + j && rows[|rows| - 1].pos == rows[0].pos + (|rows| - 1);
  }

  /** The position's row is in the table. */
  ghost predicate InTable(t: Table, p: nat) {
    (ShardOf(p), p) in t
  }

  lemma CallPending(t: Table, s: AccState, call: Call, p: nat)
    requires OpenOk(s.open, s.next) && Mirrors(t, s.open, s.next) && TableOk(t)
    requires p < s.next + |call.items| && (p < s.next - |s.open.rows| ==> !InTable(t, p))
    ensures var s', t' := Feed(s, call), Commit(t, FeedActions(s, call));
            InTable(t', p) <==> s'.next - |s'.open.rows| <= p
  {
    hide ShardOf, Commit, FeedFrom, Deletes, BufferedFor, BuffersFrom, SparesShard, TableOk, Emitted, Solid, RowsAt,
         BuffersAscend, AppendAll, DeleteAll;
    var fed, n := FeedFrom(s.open, s.next, call.items, call.notes), |call.items|;
    var s', t' := Feed(s, call), Commit(t, fed.acts);
    CallMirrors(t, s, call);
    FeedHasShape(s.open, s.next, call.items, call.notes);
    FeedCallShape(s.open, s.next, call.items, call.notes);
    FedRows(s.next, call.items);
    var first := s.next - |s.open.rows|;
    if s'.next - |s'.open.rows| <= p {
      StillThere(t', s', p);
    } else if p < first {
      BufferedForFrom(fed.acts, s.next, ShardOf(p));
      StaysOut(t, fed.acts, (ShardOf(p), p));
    } else {
      PendingAt(s, call.items, p);
      assert Emitted(fed.acts)[p - first].pos == p by {
        assert (s.open.rows + RowsAt(s.next, call.items))[p - first] == (Emitted(fed.acts) + fed.open.rows)[p - first];
      }
      HandedOnIsDeleted(fed.acts, p - first);
      CommitDrops(t, fed.acts, (ShardOf(p), p));
    }
  }

  lemma FedRows(pos: nat, items: seq<Leaf>)
    ensures |RowsAt(pos, items)| == |items|
    ensures forall i | 0 <= i < |items| :: RowsAt(pos, items)[i].pos == pos + i
  {
  }

  lemma PendingAt(s: AccState, items: seq<Leaf>, p: nat)
    requires OpenOk(s.open, s.next) && s.next - |s.open.rows| <= p < s.next + |items|
    ensures var all := s.open.rows + RowsAt(s.next, items);
            |all| == |s.open.rows| + |items| && all[p - (s.next - |s.open.rows|)].pos == p
  {
  }

  /** A pending row is in the table, under its own shard. */
  lemma StillThere(t: Table, s: AccState, p: nat)
    requires OpenOk(s.open, s.next) && Mirrors(t, s.open, s.next) && s.next - |s.open.rows| <= p < s.next
    ensures InTable(t, p)
  {
    hide ShardOf;
    var i := p - (s.next - |s.open.rows|);
    assert s.open.rows[i].pos == p;
  }

  /** A key no buffered row sits at stays out of the table. */
  lemma StaysOut(t: Table, acts: seq<FeedAction>, key: (nat, nat))
    requires BuffersAscend(acts) && NoneAt(BufferedFor(acts, key.0), key.1) && key !in t
    ensures key !in Commit(t, acts)
  {
    AppendAllKeeps(t, acts, key);
    DeleteAllAt(AppendAll(t, acts), acts, key);
  }

  /** After any committed calls, of all positions a range has seen, resumed or fed, the table
      holds exactly those still pending in the open shard. */
  lemma {:induction false} TableHoldsPending(t: Table, s: AccState, calls: seq<Call>, p: nat)
    requires OpenOk(s.open, s.next) && Mirrors(t, s.open, s.next) && TableOk(t)
    requires s.next - |s.open.rows| <= p < After(s, calls).next
    ensures var s' := After(s, calls);
            InTable(TableAfter(t, s, calls), p) <==> s'.next - |s'.open.rows| <= p
    decreases |calls|
  {
    hide ShardOf, Commit, Feed, FeedActions, InTable;
    if calls == [] {
      StillThere(t, s, p);
    } else {
      var before, call := calls[..|calls| - 1], Last(calls);
      var mid, t' := After(s, before), TableAfter(t, s, before);
      RangeMirrors(t, s, before);
      if p < mid.next {
        TableHoldsPending(t, s, before, p);
      }
      FeedNext(mid, call);
      CallPending(t', mid, call, p);
    }
  }

  lemma FeedNext(s: AccState, call: Call)
    ensures Feed(s, call).next == s.next + |call.items|
  {
  }
}
