/** Crash and resume: what a restarted range takes over from the buffer table. */
module CrashResume {
  import opened Prelude
  import opened GraftBuffer
  import opened Accumulation
  import opened AccumulatorLaws

  // ── The resumable run ────────────────────────────────────────────────────

  /** The last leaf of the chain state a range starts from. */
  datatype FrontierLeaf = FrontierLeaf(pos: nat, hash: Hash)

  /** The row can be continued at `start`: it ends right before it, on the frontier's own
      leaf. */
  predicate OnFrontier(row: Row, start: nat, leaf: Option<FrontierLeaf>) {
    row.pos + 1 == start && leaf == Some(FrontierLeaf(row.pos, row.hash))
  }

  /** `run` is the longest contiguous run of `rows` that ends on the frontier leaf right
      before `start`, and nothing when no row is there. */
  ghost predicate IsResumable(rows: seq<Row>, start: nat, leaf: Option<FrontierLeaf>, run: seq<Row>) {
    && RunBefore(run, start)
    && (forall i | 0 <= i < |run| :: run[i] in rows)
    && (run == [] <==> forall i | 0 <= i < |rows| :: !OnFrontier(rows[i], start, leaf))
    && (run != [] ==> OnFrontier(Last(run), start, leaf))
    && (run != [] ==> forall i | 0 <= i < |rows| :: rows[i].pos + 1 != run[0].pos)
  }

  /** In place, as the source does it: truncate at the start, check the last row, walk back
      while positions are contiguous. */
  method ResumableRun(rows: seq<Row>, start: nat, leaf: Option<FrontierLeaf>)
    returns (run: seq<Row>, leftOut: bool)
    requires Ascending(rows)
    ensures IsResumable(rows, start, leaf, run)
    ensures leftOut <==> |run| < |rows|
  {
    var end := 0;
    while end < |rows| && rows[end].pos < start
      invariant 0 <= end <= |rows|
      invariant forall i | 0 <= i < end :: rows[i].pos < start
    {
      end := end + 1;
    }
    if end == 0 || !OnFrontier(rows[end - 1], start, leaf) {
      NothingToResume(rows, start, leaf, end);
      return [], |rows| > 0;
    }
    var first := end - 1;
    while first > 0 && rows[first - 1].pos + 1 == rows[first].pos
      invariant 0 <= first < end
      invariant forall i | first <= i < end :: rows[i].pos == start - (end - i)
    {
      first := first - 1;
    }
    RunFound(rows, start, leaf, first, end);
    run := rows[first..end];
    leftOut := |run| < |rows|;
  }

  lemma NothingToResume(rows: seq<Row>, start: nat, leaf: Option<FrontierLeaf>, end: nat)
    requires Ascending(rows) && end <= |rows| && (end < |rows| ==> rows[end].pos >= start)
    requires end == 0 || !OnFrontier(rows[end - 1], start, leaf)
    requires forall i | 0 <= i < end :: rows[i].pos < start
    ensures IsResumable(rows, start, leaf, [])
  {
  }

  lemma RunFound(rows: seq<Row>, start: nat, leaf: Option<FrontierLeaf>, first: nat, end: nat)
    requires Ascending(rows) && first < end <= |rows| && OnFrontier(rows[end - 1], start, leaf)
    requires forall i | first <= i < end :: rows[i].pos == start - (end - i)
    requires first > 0 ==> rows[first - 1].pos + 1 != rows[first].pos
    ensures IsResumable(rows, start, leaf, rows[first..end])
  {
    var run := rows[first..end];
    assert Last(run) == rows[end - 1] && run[0] == rows[first];
    forall i | 0 <= i < |rows| ensures rows[i].pos + 1 != run[0].pos {
      if i < first - 1 {
        assert rows[i].pos < rows[first - 1].pos < rows[first].pos;
      }
    }
  }

  /** Something is resumed exactly when the buffer holds the very commitment the chain state
      ends on, right before the start: same position, same hash. Rows of another fork are
      never continued. */
  lemma ResumesOwnForkOnly(rows: seq<Row>, start: nat, leaf: Option<FrontierLeaf>, run: seq<Row>)
    requires IsResumable(rows, start, leaf, run)
    ensures run != [] <==>
              leaf.Some? && leaf.value.pos + 1 == start &&
              exists i | 0 <= i < |rows| :: rows[i].pos + 1 == start && rows[i].hash == leaf.value.hash
    ensures run != [] ==> Last(run).pos + 1 == start && leaf.Some? && Last(run).hash == leaf.value.hash
  {
    if run != [] {
      assert Last(run) in rows;
    }
  }

  lemma SameRow(rows: seq<Row>, i: nat, j: nat)
    requires Ascending(rows) && i < |rows| && j < |rows| && rows[i].pos == rows[j].pos
    ensures i == j
  {
  }

  /** The description leaves no choice. */
  lemma ResumableUnique(rows: seq<Row>, start: nat, leaf: Option<FrontierLeaf>, a: seq<Row>, b: seq<Row>)
    requires Ascending(rows) && IsResumable(rows, start, leaf, a) && IsResumable(rows, start, leaf, b)
    ensures a == b
  {
    if a != [] {
      NotLonger(rows, start, leaf, a, b);
      NotLonger(rows, start, leaf, b, a);
    }
    forall i | 0 <= i < |a| ensures a[i] == b[i] {
      var x :| 0 <= x < |rows| && rows[x] == a[i];
      var y :| 0 <= y < |rows| && rows[y] == b[i];
      SameRow(rows, x, y);
    }
  }

  /** A longer run would hold the row the shorter one says is missing. */
  lemma NotLonger(rows: seq<Row>, start: nat, leaf: Option<FrontierLeaf>, a: seq<Row>, b: seq<Row>)
    requires IsResumable(rows, start, leaf, a) && IsResumable(rows, start, leaf, b) && a != []
    ensures |b| <= |a|
  {
    if |a| < |b| {
      RunRow(rows, start, leaf, b, |b| - |a| - 1);
      assert false;
    }
  }

  lemma RunRow(rows: seq<Row>, start: nat, leaf: Option<FrontierLeaf>, run: seq<Row>, k: nat)
    requires IsResumable(rows, start, leaf, run) && k < |run|
    ensures run[k] in rows && run[k].pos == start - |run| + k
  {
  }

  // ── The table through a call ─────────────────────────────────────────────

  function AppendAll(t: Table, acts: seq<FeedAction>): Table {
    if acts == [] then t
    else
      var before := AppendAll(t, acts[..|acts| - 1]);
      var a := Last(acts);
      if a.Buffer? && a.rows != [] then Append(before, ShardOf(a.rows[0].pos), a.rows) else before
  }

  /** The rows of what was built or closed are dropped, exactly their positions. */
  function DeleteAll(t: Table, acts: seq<FeedAction>): Table {
    if acts == [] then t
    else
      var before := DeleteAll(t, acts[..|acts| - 1]);
      var a := Last(acts);
      if !a.Buffer? && a.rows != [] then
        DeleteRowsIn(before, ShardOf(a.rows[0].pos), a.rows[0].pos, Last(a.rows).pos + 1)
      else before
  }

  /** A committed call: appends before the transaction, deletes after it. */
  function Commit(t: Table, acts: seq<FeedAction>): Table {
    DeleteAll(AppendAll(t, acts), acts)
  }

  ghost predicate Deletes(acts: seq<FeedAction>, key: (nat, nat)) {
    exists i | 0 <= i < |acts| ::
      && !acts[i].Buffer? && acts[i].rows != [] && ShardOf(acts[i].rows[0].pos) == key.0
      && acts[i].rows[0].pos <= key.1 <= Last(acts[i].rows).pos
  }

  lemma {:induction false} DeleteAllAt(t: Table, acts: seq<FeedAction>, key: (nat, nat))
    ensures key in DeleteAll(t, acts) <==> key in t && !Deletes(acts, key)
    ensures key in DeleteAll(t, acts) ==> DeleteAll(t, acts)[key] == t[key]
  {
    if acts != [] {
      hide ShardOf;
      var front := acts[..|acts| - 1];
      DeleteAllAt(t, front, key);
      assert forall i | 0 <= i < |front| :: front[i] == acts[i];
      assert Last(acts) == acts[|acts| - 1];
    }
  }

  ghost predicate At(rows: seq<Row>, pos: nat, row: Row) {
    exists i | 0 <= i < |rows| :: rows[i].pos == pos && rows[i] == row
  }

  ghost predicate NoneAt(rows: seq<Row>, pos: nat) {
    forall i | 0 <= i < |rows| :: rows[i].pos != pos
  }

  lemma AppendOther(t: Table, shard: nat, rows: seq<Row>, key: (nat, nat))
    requires Ascending(rows) && (key.0 != shard || NoneAt(rows, key.1))
    ensures key in Append(t, shard, rows) <==> key in t
    ensures key in t ==> Append(t, shard, rows)[key] == t[key]
  {
    AppendAt(t, shard, rows, key);
  }

  lemma AppendHere(t: Table, shard: nat, rows: seq<Row>, key: (nat, nat), row: Row)
    requires Ascending(rows) && key.0 == shard && At(rows, key.1, row)
    ensures key in Append(t, shard, rows) && Append(t, shard, rows)[key] == row
  {
    AppendAt(t, shard, rows, key);
  }

  ghost predicate BuffersAscend(acts: seq<FeedAction>) {
    forall i | 0 <= i < |acts| && acts[i].Buffer? :: Ascending(acts[i].rows)
  }

  /** Appends leave every key alone that no buffered row of its shard sits at. */
  lemma {:induction false} AppendAllKeeps(t: Table, acts: seq<FeedAction>, key: (nat, nat))
    requires BuffersAscend(acts) && NoneAt(BufferedFor(acts, key.0), key.1)
    ensures key in AppendAll(t, acts) <==> key in t
    ensures key in t ==> AppendAll(t, acts)[key] == t[key]
  {
    if acts != [] {
      hide ShardOf, Append;
      var front, a := acts[..|acts| - 1], Last(acts);
      var b := BufferedFor(front, key.0);
      assert BuffersAscend(front) && (a.Buffer? ==> Ascending(a.rows)) by {
        assert a == acts[|acts| - 1];
      }
      assert NoneAt(b, key.1) by {
        assert b <= BufferedFor(acts, key.0);
      }
      AppendAllKeeps(t, front, key);
      if a.Buffer? && a.rows != [] {
        var shard := ShardOf(a.rows[0].pos);
        assert shard == key.0 ==> NoneAt(a.rows, key.1) by {
          assert shard == key.0 ==> BufferedFor(acts, key.0)[|b|..] == a.rows;
        }
        AppendOther(AppendAll(t, front), shard, a.rows, key);
      }
    }
  }

  /** … and put the buffered row where one does. */
  lemma {:induction false} AppendAllPuts(t: Table, acts: seq<FeedAction>, key: (nat, nat), row: Row)
    requires BuffersAscend(acts) && Ascending(BufferedFor(acts, key.0)) && At(BufferedFor(acts, key.0), key.1, row)
    ensures key in AppendAll(t, acts) && AppendAll(t, acts)[key] == row
  {
    hide ShardOf, Append;
    if acts != [] {
      var front, a := acts[..|acts| - 1], Last(acts);
      var b := BufferedFor(front, key.0);
      assert BuffersAscend(front) && (a.Buffer? ==> Ascending(a.rows)) by {
        assert a == acts[|acts| - 1];
      }
      if a.Buffer? && a.rows != [] {
        var shard := ShardOf(a.rows[0].pos);
        if shard == key.0 {
          assert BufferedFor(acts, key.0) == b + a.rows;
          PutsLast(AppendAll(t, front), b, a.rows, key, row);
          if At(b, key.1, row) {
            AscendingPrefix(b, a.rows);
            AppendAllPuts(t, front, key, row);
          }
        } else {
          assert BufferedFor(acts, key.0) == b + [] == b;
          AppendAllPuts(t, front, key, row);
          AppendOther(AppendAll(t, front), shard, a.rows, key);
        }
      } else {
        assert BufferedFor(acts, key.0) == b + [] == b;
        AppendAllPuts(t, front, key, row);
      }
    }
  }

  lemma AscendingPrefix(a: seq<Row>, b: seq<Row>)
    requires Ascending(a + b)
    ensures Ascending(a)
  {
    assert a == (a + b)[..|a|];
  }

  lemma PutsLast(t: Table, b: seq<Row>, rows: seq<Row>, key: (nat, nat), row: Row)
    requires Ascending(b + rows) && Ascending(rows) && At(b + rows, key.1, row)
    ensures At(b, key.1, row) ==>
              (key in Append(t, key.0, rows) <==> key in t) && (key in t ==> Append(t, key.0, rows)[key] == t[key])
    ensures !At(b, key.1, row) ==> key in Append(t, key.0, rows) && Append(t, key.0, rows)[key] == row
  {
    hide Append;
    if At(b, key.1, row) {
      var i :| 0 <= i < |b| && b[i].pos == key.1 && b[i] == row;
      assert (b + rows)[i] == row;
      assert NoneAt(rows, key.1) by {
        forall j | 0 <= j < |rows| ensures rows[j].pos != key.1 {
          assert (b + rows)[|b| + j] == rows[j];
        }
      }
      AppendOther(t, key.0, rows, key);
    } else {
      var i :| 0 <= i < |b + rows| && (b + rows)[i].pos == key.1 && (b + rows)[i] == row;
      assert i >= |b| && rows[i - |b|] == row;
      AppendHere(t, key.0, rows, key, row);
    }
  }

  // ── What a feed does to the table ────────────────────────────────────────

  /** The buffered rows of a feed from `pos`, and where its deletes fall. */
  ghost predicate BuffersFrom(acts: seq<FeedAction>, pos: nat) {
    forall i | 0 <= i < |acts| && acts[i].Buffer? ::
      && Ascending(acts[i].rows)
      && forall j | 0 <= j < |acts[i].rows| ::
           acts[i].rows[j].pos >= pos && ShardOf(acts[i].rows[j].pos) == ShardOf(acts[i].rows[0].pos)
  }

  ghost predicate SparesShard(acts: seq<FeedAction>, shard: nat) {
    forall q: nat :: !Deletes(acts, (shard, q))
  }

  function Kept(o: OpenShard, index: nat): seq<Row> {
    if index == o.index then o.rows else []
  }

  /** What a feed leaves open and what it emitted agree: a built shard's last row is
      deleted, a buffering shard keeps its rows and gains the buffered ones. */
  ghost predicate FeedShape(o: OpenShard, pos: nat, n: nat, fed: Fed) {
    && BuffersFrom(fed.acts, pos)
    && fed.open.index >= o.index
    && (fed.open.passthrough && n > 0 ==>
          fed.open.rows == [] && Deletes(fed.acts, (fed.open.index, pos + n - 1)))
    && (!fed.open.passthrough ==>
          && SparesShard(fed.acts, fed.open.index)
          && fed.open.rows == Kept(o, fed.open.index) + BufferedFor(fed.acts, fed.open.index)
          && |fed.open.rows| == if fed.open.index == o.index then |o.rows| + n else pos + n - fed.open.index * SHARD)
  }

  lemma {:induction false} BufferedAppend(a: seq<FeedAction>, b: seq<FeedAction>, shard: nat)
    ensures BufferedFor(a + b, shard) == BufferedFor(a, shard) + BufferedFor(b, shard)
    decreases |b|
  {
    hide ShardOf, BufferedFor;
    BufferedNone(shard);
    if b == [] {
      assert a + b == a;
    } else {
      var front := b[..|b| - 1];
      assert a + b == (a + front) + [Last(b)] && b == front + [Last(b)];
      BufferedAppend(a, front, shard);
      ActionsSnoc(a + front, Last(b), shard);
      ActionsSnoc(front, Last(b), shard);
    }
  }

  lemma BufferedNone(shard: nat)
    ensures BufferedFor([], shard) == []
  {
  }

  lemma DeletesJoin(a: seq<FeedAction>, b: seq<FeedAction>, key: (nat, nat))
    ensures Deletes(a + b, key) <==> Deletes(a, key) || Deletes(b, key)
  {
    hide ShardOf;
    if i :| 0 <= i < |b| && !b[i].Buffer? && b[i].rows != [] && ShardOf(b[i].rows[0].pos) == key.0
            && b[i].rows[0].pos <= key.1 <= Last(b[i].rows).pos {
      assert (a + b)[|a| + i] == b[i];
    }
    if i :| 0 <= i < |a| && !a[i].Buffer? && a[i].rows != [] && ShardOf(a[i].rows[0].pos) == key.0
            && a[i].rows[0].pos <= key.1 <= Last(a[i].rows).pos {
      assert (a + b)[i] == a[i];
    }
  }

  lemma SpanEnters(o: OpenShard, pos: nat)
    requires OpenOk(o, pos)
    ensures var e := Enter(o, ShardOf(pos));
            && OpenOk(e.open, pos) && e.open.index == ShardOf(pos) >= o.index
            && e.open.rows == Kept(o, ShardOf(pos))
            && (e.open.index != o.index ==> pos == e.open.index * SHARD && !e.open.passthrough)
            && |e.acts| <= 1 && (e.acts != [] ==> !e.acts[0].Buffer?)
  {
    TransitionAtBoundary(o.index, pos);
  }

  lemma SpanBuffersFrom(closing: seq<FeedAction>, e: OpenShard, pos: nat, items: seq<Leaf>, noted: bool)
    requires |closing| <= 1 && (closing != [] ==> !closing[0].Buffer?)
    requires e.index * SHARD <= pos && pos + |items| <= (e.index + 1) * SHARD
    ensures BuffersFrom(closing + [AbsorbAction(e, RowsAt(pos, items), noted)], pos)
  {
    hide ShardOf;
    SpanRows(pos, items, e.index);
  }

  /** Everything a span emits concerns its own shard or the one it leaves. */
  lemma SpanShape(o: OpenShard, pos: nat, items: seq<Leaf>, noted: bool)
    requires OpenOk(o, pos) && items != [] && pos + |items| <= (ShardOf(pos) + 1) * SHARD
    ensures var fed := TakeSpan(o, pos, RowsAt(pos, items), noted);
            FeedShape(o, pos, |items|, fed) && fed.open.index == ShardOf(pos) && OpenOk(fed.open, pos + |items|)
  {
    hide ShardOf, RowsAt, OpenOk, Deletes, BuffersFrom, Enter, BufferedFor, SparesShard;
    var span := RowsAt(pos, items);
    var e := Enter(o, ShardOf(pos));
    SpanEnters(o, pos);
    SpanRows(pos, items, ShardOf(pos));
    OpenBounds(e.open, pos);
    AbsorbOpen(e.open, pos, items, noted);
    SpanBuffersFrom(e.acts, e.open, pos, items, noted);
    SpanBuffered(e.acts, AbsorbAction(e.open, span, noted), ShardOf(pos));
    if e.open.passthrough || noted {
      SpanDeletes(e.open, e.acts, pos, items, noted);
    } else {
      SpanSpares(o, pos, span);
    }
  }

  lemma SpanBuffered(closing: seq<FeedAction>, act: FeedAction, shard: nat)
    requires |closing| <= 1 && (closing != [] ==> !closing[0].Buffer?)
    ensures BufferedFor(closing + [act], shard) ==
            if act.Buffer? && act.rows != [] && ShardOf(act.rows[0].pos) == shard then act.rows else []
  {
    ActionsSnoc(closing, act, shard);
    if closing != [] {
      assert closing[..0] == [];
    }
  }

  lemma SpanDeletes(e: OpenShard, closing: seq<FeedAction>, pos: nat, items: seq<Leaf>, noted: bool)
    requires OpenOk(e, pos) && e.index == ShardOf(pos) && items != [] && (e.passthrough || noted)
    ensures Deletes(closing + [AbsorbAction(e, RowsAt(pos, items), noted)], (e.index, pos + |items| - 1))
  {
    hide ShardOf;
    var span := RowsAt(pos, items);
    var act := AbsorbAction(e, span, noted);
    assert (closing + [act])[|closing|] == act;
    assert act.rows[|act.rows| - 1] == span[|items| - 1];
    assert act.rows[0] == if e.rows == [] then span[0] else e.rows[0];
  }

  /** A buffered span deletes nothing of its own shard. */
  lemma SpanSpares(o: OpenShard, pos: nat, span: seq<Row>)
    requires OpenOk(o, pos)
    ensures SparesShard(Enter(o, ShardOf(pos)).acts + [Buffer(span)], ShardOf(pos))
  {
    hide ShardOf;
    var acts := Enter(o, ShardOf(pos)).acts + [Buffer(span)];
    forall q: nat ensures !Deletes(acts, (ShardOf(pos), q)) {
    }
  }

  lemma JoinShape(o: OpenShard, pos: nat, n: nat, head: Fed, m: nat, rest: Fed)
    requires FeedShape(o, pos, n, head) && FeedShape(head.open, pos + n, m, rest) && n > 0
    requires m == 0 ==> rest == Fed(head.open, [])
    requires m > 0 ==> rest.open.index > head.open.index
    requires m > 0 ==> SparesShard(head.acts, rest.open.index) && BufferedFor(head.acts, rest.open.index) == []
    ensures FeedShape(o, pos, n + m, Fed(rest.open, head.acts + rest.acts))
  {
    hide ShardOf, Deletes, BufferedFor;
    if m == 0 {
      assert head.acts + rest.acts == head.acts;
    } else {
      BuffersFromJoin(head.acts, rest.acts, pos, pos + n);
      BufferedAppend(head.acts, rest.acts, rest.open.index);
      DeletesJoin(head.acts, rest.acts, (rest.open.index, pos + n + m - 1));
      if !rest.open.passthrough {
        SparesJoin(head.acts, rest.acts, rest.open.index);
      }
    }
  }

  lemma BuffersFromJoin(a: seq<FeedAction>, b: seq<FeedAction>, pos: nat, pos': nat)
    requires BuffersFrom(a, pos) && BuffersFrom(b, pos') && pos <= pos'
    ensures BuffersFrom(a + b, pos)
  {
  }

  lemma SparesJoin(a: seq<FeedAction>, b: seq<FeedAction>, shard: nat)
    requires SparesShard(a, shard) && SparesShard(b, shard)
    ensures SparesShard(a + b, shard)
  {
    hide Deletes;
    forall q: nat ensures !Deletes(a + b, (shard, q)) {
      DeletesJoin(a, b, (shard, q));
    }
  }

  /** A span touches no shard above its own. */
  lemma SpanBelow(o: OpenShard, pos: nat, items: seq<Leaf>, noted: bool, shard: nat)
    requires OpenOk(o, pos) && items != [] && pos + |items| <= (ShardOf(pos) + 1) * SHARD && shard > ShardOf(pos)
    ensures var acts := TakeSpan(o, pos, RowsAt(pos, items), noted).acts;
            SparesShard(acts, shard) && BufferedFor(acts, shard) == []
  {
    hide ShardOf, RowsAt, Enter, BufferedFor, SparesShard;
    var e := Enter(o, ShardOf(pos));
    var act := AbsorbAction(e.open, RowsAt(pos, items), noted);
    SpanEnters(o, pos);
    SpanRows(pos, items, ShardOf(pos));
    SpanBuffered(e.acts, act, shard);
    ClosingBelow(o, pos, shard);
    ActionBelow(act, ShardOf(pos), shard);
    SparesJoin(e.acts, [act], shard);
  }

  lemma ClosingBelow(o: OpenShard, pos: nat, shard: nat)
    requires OpenOk(o, pos) && shard > o.index
    ensures SparesShard(Enter(o, ShardOf(pos)).acts, shard)
  {
    hide ShardOf;
    var acts := Enter(o, ShardOf(pos)).acts;
    forall q: nat ensures !Deletes(acts, (shard, q)) {
    }
  }

  lemma ActionBelow(act: FeedAction, own: nat, shard: nat)
    requires act.rows != [] ==> ShardOf(act.rows[0].pos) == own
    requires own != shard
    ensures SparesShard([act], shard)
  {
    hide ShardOf;
    forall q: nat ensures !Deletes([act], (shard, q)) {
    }
  }

  lemma {:induction false} FeedHasShape(o: OpenShard, pos: nat, items: seq<Leaf>, notes: seq<nat>)
    requires OpenOk(o, pos)
    ensures var fed := FeedFrom(o, pos, items, notes);
            && FeedShape(o, pos, |items|, fed) && OpenOk(fed.open, pos + |items|)
            && (items != [] ==> fed.open.index >= ShardOf(pos))
    decreases |items|
  {
    hide ShardOf, RowsAt, OpenOk, TakeSpan, FeedShape, HasNote, SparesShard;
    if items == [] {
      NoFeedShape(o, pos);
    } else {
      var len := SpanLen(pos, |items|);
      var span, noted := RowsAt(pos, items[..len]), HasNote(notes, pos, pos + len);
      SpanShape(o, pos, items[..len], noted);
      var head := TakeSpan(o, pos, span, noted);
      FeedHasShape(head.open, pos + len, items[len..], notes);
      var rest := FeedFrom(head.open, pos + len, items[len..], notes);
      if len < |items| {
        NextShard(pos, pos + len);
        SpanBelow(o, pos, items[..len], noted, rest.open.index);
      }
      JoinShape(o, pos, len, head, |items| - len, rest);
    }
  }

  lemma NextShard(pos: nat, next: nat)
    requires next == (ShardOf(pos) + 1) * SHARD
    ensures ShardOf(next) == ShardOf(pos) + 1
  {
  }

  lemma NoFeedShape(o: OpenShard, pos: nat)
    ensures FeedShape(o, pos, 0, Fed(o, []))
  {
    hide ShardOf;
    forall q: nat ensures !Deletes([], (o.index, q)) {
    }
    assert o.rows + [] == o.rows;
  }

  // ── The table mirrors the accumulator ────────────────────────────────────

  ghost predicate TableOk(t: Table) {
    forall key | key in t :: ShardOf(key.1) == key.0
  }

  /** The buffer holds the open shard's rows, and nothing right below them in that
      shard. */
  ghost predicate Mirrors(t: Table, o: OpenShard, next: nat) {
    && |o.rows| <= next
    && (forall i | 0 <= i < |o.rows| :: (o.index, o.rows[i].pos) in t && t[(o.index, o.rows[i].pos)] == o.rows[i])
    && (next - |o.rows| > 0 ==> (o.index, next - |o.rows| - 1) !in t)
  }

  lemma CommitKeeps(t: Table, acts: seq<FeedAction>, key: (nat, nat))
    requires BuffersAscend(acts) && NoneAt(BufferedFor(acts, key.0), key.1) && !Deletes(acts, key)
    ensures key in Commit(t, acts) <==> key in t
    ensures key in t ==> Commit(t, acts)[key] == t[key]
  {
    AppendAllKeeps(t, acts, key);
    DeleteAllAt(AppendAll(t, acts), acts, key);
  }

  lemma CommitPuts(t: Table, acts: seq<FeedAction>, key: (nat, nat), row: Row)
    requires BuffersAscend(acts) && Ascending(BufferedFor(acts, key.0)) && At(BufferedFor(acts, key.0), key.1, row)
    requires !Deletes(acts, key)
    ensures key in Commit(t, acts) && Commit(t, acts)[key] == row
  {
    AppendAllPuts(t, acts, key, row);
    DeleteAllAt(AppendAll(t, acts), acts, key);
  }

  lemma {:induction false} BufferedForFrom(acts: seq<FeedAction>, pos: nat, shard: nat)
    requires BuffersFrom(acts, pos)
    ensures BuffersAscend(acts)
    ensures forall i | 0 <= i < |BufferedFor(acts, shard)| :: BufferedFor(acts, shard)[i].pos >= pos
  {
    if acts != [] {
      var front := acts[..|acts| - 1];
      assert BuffersFrom(front, pos);
      BufferedForFrom(front, pos, shard);
      assert Last(acts) == acts[|acts| - 1];
    }
  }

  lemma {:induction false} AppendTableOk(t: Table, shard: nat, rows: seq<Row>)
    requires TableOk(t) && forall i | 0 <= i < |rows| :: ShardOf(rows[i].pos) == shard
    ensures TableOk(Append(t, shard, rows))
    decreases |rows|
  {
    if rows != [] {
      AppendTableOk(t, shard, rows[..|rows| - 1]);
    }
  }

  lemma {:induction false} AppendAllTableOk(t: Table, acts: seq<FeedAction>, pos: nat)
    requires TableOk(t) && BuffersFrom(acts, pos)
    ensures TableOk(AppendAll(t, acts))
  {
    hide ShardOf, Append;
    if acts != [] {
      var front, a := acts[..|acts| - 1], Last(acts);
      assert BuffersFrom(front, pos);
      AppendAllTableOk(t, front, pos);
      if a.Buffer? && a.rows != [] {
        assert a == acts[|acts| - 1];
        AppendTableOk(AppendAll(t, front), ShardOf(a.rows[0].pos), a.rows);
      }
    }
  }

  lemma CommitTableOk(t: Table, acts: seq<FeedAction>, pos: nat)
    requires TableOk(t) && BuffersFrom(acts, pos)
    ensures TableOk(Commit(t, acts))
  {
    hide ShardOf, AppendAll, DeleteAll, BuffersFrom;
    AppendAllTableOk(t, acts, pos);
    forall key | key in Commit(t, acts) ensures ShardOf(key.1) == key.0 {
      DeleteAllAt(AppendAll(t, acts), acts, key);
    }
  }

  /** A buffering shard: its old rows stay, the buffered ones are put. */
  lemma BufferingMirrors(t: Table, o: OpenShard, pos: nat, n: nat, fed: Fed)
    requires OpenOk(o, pos) && OpenOk(fed.open, pos + n) && FeedShape(o, pos, n, fed) && !fed.open.passthrough
    requires Mirrors(t, o, pos) && TableOk(t)
    ensures Mirrors(Commit(t, fed.acts), fed.open, pos + n)
  {
    hide ShardOf, Commit, BufferedFor, Deletes, BuffersAscend;
    var index, rows := fed.open.index, fed.open.rows;
    var kept, b := Kept(o, index), BufferedFor(fed.acts, index);
    BufferedForFrom(fed.acts, pos, index);
    assert Ascending(b) by {
      assert forall i | 0 <= i < |b| :: b[i] == rows[|kept| + i];
    }
    forall i | 0 <= i < |rows|
      ensures (index, rows[i].pos) in Commit(t, fed.acts) && Commit(t, fed.acts)[(index, rows[i].pos)] == rows[i]
    {
      if i < |kept| {
        assert rows[i] == o.rows[i];
        CommitKeeps(t, fed.acts, (index, rows[i].pos));
      } else {
        assert At(b, rows[i].pos, rows[i]) by {
          assert b[i - |kept|] == rows[i];
        }
        CommitPuts(t, fed.acts, (index, rows[i].pos), rows[i]);
      }
    }
    BelowStaysFree(t, o, pos, n, fed);
  }

  lemma BelowStaysFree(t: Table, o: OpenShard, pos: nat, n: nat, fed: Fed)
    requires OpenOk(fed.open, pos + n) && FeedShape(o, pos, n, fed) && !fed.open.passthrough
    requires Mirrors(t, o, pos) && TableOk(t)
    ensures |fed.open.rows| <= pos + n
    ensures pos + n - |fed.open.rows| > 0 ==>
              (fed.open.index, pos + n - |fed.open.rows| - 1) !in Commit(t, fed.acts)
  {
    hide Commit, BufferedFor, Deletes, BuffersAscend;
    var index := fed.open.index;
    var first := pos + n - |fed.open.rows|;
    BufferedForFrom(fed.acts, pos, index);
    if index == o.index {
      if first > 0 {
        CommitKeeps(t, fed.acts, (index, first - 1));
      }
    } else {
      CommitTableOk(t, fed.acts, pos);
    }
  }

  /** The table after one more committed call mirrors the accumulator after it. */
  lemma CallMirrors(t: Table, s: AccState, call: Call)
    requires OpenOk(s.open, s.next) && Mirrors(t, s.open, s.next) && TableOk(t)
    ensures var s' := Feed(s, call);
            var t' := Commit(t, FeedActions(s, call));
            OpenOk(s'.open, s'.next) && Mirrors(t', s'.open, s'.next) && TableOk(t')
  {
    hide ShardOf, Commit, OpenOk, FeedFrom, Deletes, BufferedFor, BuffersFrom, SparesShard, TableOk;
    FeedHasShape(s.open, s.next, call.items, call.notes);
    var fed := FeedFrom(s.open, s.next, call.items, call.notes);
    CommitTableOk(t, fed.acts, s.next);
    if !fed.open.passthrough {
      BufferingMirrors(t, s.open, s.next, |call.items|, fed);
    } else if call.items == [] {
      FeedNothing(s.open, s.next, call.notes);
      CommitNothing(t);
    } else {
      CommitDrops(t, fed.acts, (fed.open.index, s.next + |call.items| - 1));
    }
  }

  lemma CommitNothing(t: Table)
    ensures Commit(t, []) == t
  {
  }

  lemma CommitDrops(t: Table, acts: seq<FeedAction>, key: (nat, nat))
    requires Deletes(acts, key)
    ensures key !in Commit(t, acts)
  {
    DeleteAllAt(AppendAll(t, acts), acts, key);
  }

  function TableAfter(t: Table, s: AccState, calls: seq<Call>): Table
    decreases |calls|
  {
    if calls == [] then t
    else
      var before := calls[..|calls| - 1];
      Commit(TableAfter(t, s, before), FeedActions(After(s, before), Last(calls)))
  }

  lemma {:induction false} RangeMirrors(t: Table, s: AccState, calls: seq<Call>)
    requires OpenOk(s.open, s.next) && Mirrors(t, s.open, s.next) && TableOk(t)
    ensures var s' := After(s, calls);
            var t' := TableAfter(t, s, calls);
            OpenOk(s'.open, s'.next) && Mirrors(t', s'.open, s'.next) && TableOk(t')
    decreases |calls|
  {
    hide ShardOf, Commit, OpenOk, Feed, FeedActions, TableOk, Mirrors;
    if calls != [] {
      var before := calls[..|calls| - 1];
      RangeMirrors(t, s, before);
      CallMirrors(TableAfter(t, s, before), After(s, before), Last(calls));
    }
  }

  // ── Resuming ─────────────────────────────────────────────────────────────

  /** A seed: the resumable run of the loaded shard, with the positions about to be fed
      again dropped from the table. Nothing else may sit right below the start. */
  lemma SeedMirrors(
    t: Table, start: nat, to: nat, load: seq<Row>, leaf: Option<FrontierLeaf>, run: seq<Row>, flag: bool)
    requires TableOk(t) && IsLoad(t, ShardOf(start), load) && IsResumable(load, start, leaf, run)
    requires run == [] && start > 0 ==> (ShardOf(start), start - 1) !in t
    ensures var t' := DeleteRowsIn(t, ShardOf(start), start, to);
            SeedOk(start, run) && TableOk(t') && Mirrors(t', Seed(start, run, flag).open, start)
  {
    hide ShardOf;
    var shard := ShardOf(start);
    forall i | 0 <= i < |run|
      ensures ShardOf(run[i].pos) == shard && (shard, run[i].pos) in t && t[(shard, run[i].pos)] == run[i]
    {
      var x :| 0 <= x < |load| && load[x] == run[i];
    }
  }

  /** The frontier a restarted range is given: on the chain it was fed. */
  ghost predicate TrueLeaf(s: AccState, leaf: Option<FrontierLeaf>) {
    s.open.rows != [] && s.next > 0 ==> leaf == Some(FrontierLeaf(s.next - 1, Last(s.open.rows).hash))
  }

  /** From a table that mirrors the accumulator, the resumable run is the open shard's
      rows. */
  lemma ResumeRestores(t: Table, s: AccState, load: seq<Row>, leaf: Option<FrontierLeaf>, run: seq<Row>)
    requires OpenOk(s.open, s.next) && Mirrors(t, s.open, s.next) && TrueLeaf(s, leaf)
    requires IsLoad(t, s.open.index, load) && IsResumable(load, s.next, leaf, run)
    ensures run == s.open.rows
  {
    hide ShardOf;
    var index, rows, next := s.open.index, s.open.rows, s.next;
    forall i | 0 <= i < |load| ensures load[i].pos + 1 != next - |rows| {
      assert (index, load[i].pos) in t;
    }
    forall i | 0 <= i < |rows| ensures rows[i] in load {
      assert (index, rows[i].pos) in t;
    }
    ResumableUnique(load, next, leaf, run, rows);
  }

  /** The frontier leaf of the last position the range saw is the true one. */
  lemma SeenLeafIsTrue(start: nat, resume: seq<Row>, flag: bool, calls: seq<Call>, leaf: Option<FrontierLeaf>)
    requires SeedOk(start, resume)
    requires var seen := Seen(start, resume, calls);
             seen != [] && start + |ItemsOf(calls)| > 0 ==>
               leaf == Some(FrontierLeaf(start + |ItemsOf(calls)| - 1, Last(seen).hash))
    ensures TrueLeaf(After(Seed(start, resume, flag), calls), leaf)
  {
    hide After, Actions, Seen, ShardOf, ClosesComplete, BufferingOk, NoneAhead, OpenOk, RunBefore;
    RangeLedger(start, resume, flag, calls);
  }

  lemma ReseedIff(s: AccState, run: seq<Row>, stored: bool)
    requires s.open.index == ShardOf(s.next) ==> run == s.open.rows
    ensures Seed(s.next, run, stored) == s <==> s.open.index == ShardOf(s.next) && stored == s.open.passthrough
  {
    hide ShardOf;
  }

  /** Crash-resume equivalence: cut the range after any feeds and reseed from the cleaned-up
      table with the true frontier leaf. The accumulator is restored exactly when the feeds
      did not end on a shard boundary and the store flag says whether the store holds
      content of the next position's shard: content that was there at the seed, or that the
      range built. The rest of the range then emits what the uncut run would have. */
  lemma CrashResumeEquivalence(
    t: Table, start: nat, resume: seq<Row>, flag: bool, calls: seq<Call>, later: seq<Call>,
    load: seq<Row>, leaf: Option<FrontierLeaf>, run: seq<Row>, stored: bool)
    requires SeedOk(start, resume) && TableOk(t) && Mirrors(t, Seed(start, resume, flag).open, start)
    requires var seed := Seed(start, resume, flag);
             var s := After(seed, calls);
             && IsLoad(TableAfter(t, seed, calls), ShardOf(s.next), load)
             && TrueLeaf(s, leaf) && IsResumable(load, s.next, leaf, run)
    ensures var seed := Seed(start, resume, flag);
            var s := After(seed, calls);
            var next := start + |ItemsOf(calls)|;
            var again := Seed(next, run, stored);
            && (again == s <==>
                  && (next % SHARD != 0 || ItemsOf(calls) == [])
                  && (stored <==> StoreHolds(start, flag, Actions(seed, calls), ShardOf(next))))
            && (again == s ==>
                  && Actions(seed, calls + later) == Actions(seed, calls) + Actions(again, later)
                  && After(seed, calls + later) == After(again, later))
  {
    hide ShardOf, After, Actions, TableAfter, IsLoad, IsResumable, Mirrors, TableOk, SeedOk, TrueLeaf, OpenOk, Seed,
         StoreHolds;
    var seed := Seed(start, resume, flag);
    var s := After(seed, calls);
    SeedOpenOk(start, resume, flag);
    RangeMirrors(t, seed, calls);
    RangeIndex(start, resume, flag, calls);
    OffBoundaryIff(start, resume, flag, calls);
    PassthroughIff(start, resume, flag, calls);
    if s.open.index == ShardOf(s.next) {
      ResumeRestores(TableAfter(t, seed, calls), s, load, leaf, run);
    }
    ReseedIff(s, run, stored);
    ActionsAppend(seed, calls, later);
    AfterAppend(seed, calls, later);
  }

  lemma SeedOpenOk(start: nat, resume: seq<Row>, flag: bool)
    requires SeedOk(start, resume)
    ensures var seed := Seed(start, resume, flag); seed.next == start && OpenOk(seed.open, start)
  {
  }

  /** On a boundary the two runs do part: the uncut range closes the finished shard with its
      next feed, a reseeded one never does. */
  lemma BoundaryCutDropsClose(s: AccState, run: seq<Row>, stored: bool, call: Call, later: seq<Call>)
    requires OpenOk(s.open, s.next) && s.open.index != ShardOf(s.next) && !s.open.passthrough && call.items != []
    ensures FeedActions(s, call)[..1] == [CloseCleanShard(s.open.index, s.open.rows)]
    ensures NeverCloses(Actions(Seed(s.next, run, stored), [call] + later), s.open.index)
  {
    TransitionAtBoundary(s.open.index, s.next);
    BarredForever(Seed(s.next, run, stored), [call] + later, s.open.index);
  }

  /** One whole shard of commitments without an owned note. */
  function WholeShard(leaf: Leaf): Call {
    Call(seq(SHARD, _ => leaf), [])
  }

  /** Such a cut: a range that begins at position 0 and is cut after its first shard. The
      uncut range closes shard 0 with its next feed, a restarted one never does. */
  lemma BoundaryCutReached(leaf: Leaf, run: seq<Row>, stored: bool, call: Call, later: seq<Call>)
    requires call.items != []
    ensures var s := After(Seed(0, [], false), [WholeShard(leaf)]);
            && s.next == SHARD && s.open.index == 0 != ShardOf(s.next) && !s.open.passthrough
            && FeedActions(s, call)[..1] == [CloseCleanShard(0, RowsAt(0, WholeShard(leaf).items))]
            && NeverCloses(Actions(Seed(SHARD, run, stored), [call] + later), 0)
  {
    hide RowsAt, FeedFrom, NeverCloses, Actions, After;
    var seed, whole := Seed(0, [], false), WholeShard(leaf);
    var items := whole.items;
    OneCall(seed, whole);
    FeedUnfolds(seed.open, 0, items, []);
    assert SpanLen(0, SHARD) == SHARD && items[..SHARD] == items && items[SHARD..] == [];
    FeedNothing(Absorbed(seed.open, RowsAt(0, items), false), SHARD, []);
    assert [] + RowsAt(0, items) == RowsAt(0, items);
    PassthroughIff(0, [], false, [whole]);
    BoundaryCutDropsClose(Feed(seed, whole), run, stored, call, later);
  }

  /** A crash after a call's appends but before its commit: the range starts that call over,
      and the extra rows, all at positions it feeds again, change nothing. */
  lemma CrashBeforeCommit(t: Table, s: AccState, call: Call)
    requires OpenOk(s.open, s.next) && Mirrors(t, s.open, s.next)
    ensures Mirrors(AppendAll(t, FeedActions(s, call)), s.open, s.next)
  {
    hide ShardOf, FeedFrom, Deletes, BufferedFor, SparesShard, AppendAll, BuffersFrom;
    FeedHasShape(s.open, s.next, call.items, call.notes);
    var acts, index := FeedActions(s, call), s.open.index;
    BufferedForFrom(acts, s.next, index);
    forall i | 0 <= i < |s.open.rows|
      ensures (index, s.open.rows[i].pos) in AppendAll(t, acts)
              && AppendAll(t, acts)[(index, s.open.rows[i].pos)] == s.open.rows[i]
    {
      AppendAllKeeps(t, acts, (index, s.open.rows[i].pos));
    }
    var first := s.next - |s.open.rows|;
    if first > 0 {
      AppendAllKeeps(t, acts, (index, first - 1));
    }
  }

  // ── A crash after the commit, before the deletes ─────────────────────────

  /** The table holds nothing else at the positions of `rows`. */
  ghost predicate Agrees(t: Table, rows: seq<Row>) {
    forall key, i | key in t && 0 <= i < |rows| && rows[i].pos == key.1 :: t[key] == rows[i]
  }

  /** What is buffered are rows of `rows`. */
  ghost predicate BuffersOnly(acts: seq<FeedAction>, rows: seq<Row>) {
    forall i, j | 0 <= i < |acts| && acts[i].Buffer? && 0 <= j < |acts[i].rows| :: acts[i].rows[j] in rows
  }

  lemma SpanBuffersOnly(o: OpenShard, pos: nat, span: seq<Row>, noted: bool, rows: seq<Row>)
    requires forall i | 0 <= i < |span| :: span[i] in rows
    ensures BuffersOnly(TakeSpan(o, pos, span, noted).acts, rows)
  {
    hide ShardOf;
  }

  /** A feed buffers only rows it was fed. */
  lemma {:induction false} FeedBuffersOnly(o: OpenShard, pos: nat, items: seq<Leaf>, notes: seq<nat>, rows: seq<Row>)
    requires forall i | 0 <= i < |items| :: RowsAt(pos, items)[i] in rows
    ensures BuffersOnly(FeedFrom(o, pos, items, notes).acts, rows)
    decreases |items|
  {
    hide RowsAt, TakeSpan, HasNote, ShardOf;
    if items != [] {
      var len := SpanLen(pos, |items|);
      RowsAtSplit(pos, items, len);
      var span, noted := RowsAt(pos, items[..len]), HasNote(notes, pos, pos + len);
      forall i | 0 <= i < len ensures span[i] in rows {
        assert span[i] == RowsAt(pos, items)[i];
      }
      var tail := RowsAt(pos + len, items[len..]);
      forall i | 0 <= i < |tail| ensures tail[i] in rows {
        assert tail[i] == RowsAt(pos, items)[len + i];
      }
      SpanBuffersOnly(o, pos, span, noted, rows);
      FeedBuffersOnly(TakeSpan(o, pos, span, noted).open, pos + len, items[len..], notes, rows);
    }
  }

  lemma {:induction false} AppendAgrees(t: Table, shard: nat, more: seq<Row>, rows: seq<Row>, next: nat)
    requires Agrees(t, rows) && RunBefore(rows, next)
    requires forall j | 0 <= j < |more| :: more[j] in rows
    ensures Agrees(Append(t, shard, more), rows)
    decreases |more|
  {
    if more != [] {
      AppendAgrees(t, shard, more[..|more| - 1], rows, next);
      assert more[|more| - 1] in rows;
      var x :| 0 <= x < |rows| && rows[x] == Last(more);
    }
  }

  lemma {:induction false} AppendAllAgrees(t: Table, acts: seq<FeedAction>, rows: seq<Row>, next: nat)
    requires Agrees(t, rows) && RunBefore(rows, next) && BuffersOnly(acts, rows)
    ensures Agrees(AppendAll(t, acts), rows)
    decreases |acts|
  {
    hide Agrees, RunBefore, ShardOf, Append;
    if acts != [] {
      var front, a := acts[..|acts| - 1], Last(acts);
      assert BuffersOnly(front, rows);
      AppendAllAgrees(t, front, rows, next);
      if a.Buffer? && a.rows != [] {
        assert a == acts[|acts| - 1];
        AppendAgrees(AppendAll(t, front), ShardOf(a.rows[0].pos), a.rows, rows, next);
      }
    }
  }

  lemma {:induction false} DeleteAllAgrees(t: Table, acts: seq<FeedAction>, rows: seq<Row>)
    requires Agrees(t, rows)
    ensures Agrees(DeleteAll(t, acts), rows)
    decreases |acts|
  {
    if acts != [] {
      DeleteAllAgrees(t, acts[..|acts| - 1], rows);
    }
  }

  lemma ItemsAround(before: seq<Call>, call: Call, later: seq<Call>)
    ensures ItemsOf(before + ([call] + later)) == ItemsOf(before) + call.items + ItemsOf(later)
  {
    hide ItemsOf;
    ItemsAppend(before, [call] + later);
    ItemsAppend([call], later);
    ItemsOne(call);
    assert ItemsOf(before) + (call.items + ItemsOf(later)) == ItemsOf(before) + call.items + ItemsOf(later);
  }

  lemma ItemsOne(call: Call)
    ensures ItemsOf([call]) == call.items
  {
    assert [call][..0] == [] && [] + call.items == call.items;
  }

  lemma RowsAround(start: nat, resume: seq<Row>, a: seq<Leaf>, b: seq<Leaf>, c: seq<Leaf>)
    ensures var rows := RowsAt(start + |a|, b);
            |rows| == |b| && forall i | 0 <= i < |rows| :: rows[i] in resume + RowsAt(start, a + b + c)
  {
    var rows, all := RowsAt(start + |a|, b), RowsAt(start, a + b + c);
    forall i | 0 <= i < |rows| ensures rows[i] in resume + all {
      assert all[|a| + i] == rows[i];
      assert (resume + all)[|resume| + |a| + i] == rows[i];
    }
  }

  /** The rows of one call are among the rows of the whole range. */
  lemma CallRows(start: nat, resume: seq<Row>, before: seq<Call>, call: Call, later: seq<Call>)
    ensures var rows := RowsAt(start + |ItemsOf(before)|, call.items);
            var seen := Seen(start, resume, before + ([call] + later));
            |rows| == |call.items| && forall i | 0 <= i < |rows| :: rows[i] in seen
  {
    hide ItemsOf, RowsAt;
    ItemsAround(before, call, later);
    RowsAround(start, resume, ItemsOf(before), call.items, ItemsOf(later));
  }

  lemma {:induction false} ItemsAppend(a: seq<Call>, b: seq<Call>)
    ensures ItemsOf(a + b) == ItemsOf(a) + ItemsOf(b)
    decreases |b|
  {
    if b == [] {
      assert a + b == a;
    } else {
      assert (a + b)[..|a + b| - 1] == a + b[..|b| - 1];
      ItemsAppend(a, b[..|b| - 1]);
    }
  }

  lemma {:induction false} TableAgrees(
    t: Table, start: nat, resume: seq<Row>, flag: bool, calls: seq<Call>, later: seq<Call>)
    requires SeedOk(start, resume) && Agrees(t, Seen(start, resume, calls + later))
    ensures Agrees(TableAfter(t, Seed(start, resume, flag), calls), Seen(start, resume, calls + later))
    decreases |calls|
  {
    hide Agrees, Seen, RowsAt, FeedFrom, ShardOf, AppendAll, DeleteAll, RunBefore, Ledger;
    if calls != [] {
      var before, call := calls[..|calls| - 1], Last(calls);
      var seed := Seed(start, resume, flag);
      assert calls + later == before + ([call] + later);
      TableAgrees(t, start, resume, flag, before, [call] + later);
      CommitAgrees(TableAfter(t, seed, before), start, resume, flag, before, call, later);
    }
  }

  lemma CommitAgrees(
    t: Table, start: nat, resume: seq<Row>, flag: bool, before: seq<Call>, call: Call, later: seq<Call>)
    requires SeedOk(start, resume) && Agrees(t, Seen(start, resume, before + ([call] + later)))
    ensures var seen := Seen(start, resume, before + ([call] + later));
            var acts := FeedActions(After(Seed(start, resume, flag), before), call);
            Agrees(AppendAll(t, acts), seen) && Agrees(Commit(t, acts), seen)
  {
    hide Agrees, Seen, RowsAt, FeedFrom, ShardOf, AppendAll, DeleteAll, RunBefore, Ledger, After, Seed;
    var seed := Seed(start, resume, flag);
    var s := After(seed, before);
    var seen := Seen(start, resume, before + ([call] + later));
    RangeIndex(start, resume, flag, before);
    CallRows(start, resume, before, call, later);
    FeedBuffersOnly(s.open, s.next, call.items, call.notes, seen);
    SeenIsRun(start, resume, before + ([call] + later));
    AppendAllAgrees(t, FeedActions(s, call), seen, start + |ItemsOf(before + ([call] + later))|);
    DeleteAllAgrees(AppendAll(t, FeedActions(s, call)), FeedActions(s, call), seen);
  }

  lemma SeenIsRun(start: nat, resume: seq<Row>, calls: seq<Call>)
    requires SeedOk(start, resume)
    ensures RunBefore(Seen(start, resume, calls), start + |ItemsOf(calls)|)
  {
    AbsorbRun(resume, start, ItemsOf(calls));
  }

  /** A crash after a call's commit, before its deletes, leaves rows of built shards in the
      table. Whatever later range resumes them on a shard with store content, it resumes
      the very rows the cut range saw at those positions, and builds them again with its
      first span, or at its end when it is fed nothing. */
  lemma StaleRunRebuilt(
    t: Table, start: nat, resume: seq<Row>, flag: bool, before: seq<Call>, call: Call,
    at: nat, load: seq<Row>, leaf: Option<FrontierLeaf>, run: seq<Row>, next: Call)
    requires SeedOk(start, resume) && Agrees(t, Seen(start, resume, before + [call]))
    requires var seed := Seed(start, resume, flag);
             var stale := AppendAll(TableAfter(t, seed, before), FeedActions(After(seed, before), call));
             IsLoad(stale, ShardOf(at), load) && IsResumable(load, at, leaf, run)
    ensures var seen := Seen(start, resume, before + [call]);
            forall i, j | 0 <= i < |run| && 0 <= j < |seen| && run[i].pos == seen[j].pos :: run[i] == seen[j]
    ensures next.items != [] ==>
              FeedActions(Seed(at, run, true), next)[..1]
              == [Build(run + RowsAt(at, next.items[..SpanLen(at, |next.items|)]))]
    ensures Finish(Seed(at, run, true)) == if run == [] then [] else [Build(run)]
  {
    hide Seen, RowsAt, FeedFrom, ShardOf, AppendAll, TableAfter, After, SeedOk, RunBefore;
    var seed := Seed(start, resume, flag);
    var stale := AppendAll(TableAfter(t, seed, before), FeedActions(After(seed, before), call));
    assert before + ([call] + []) == before + [call];
    TableAgrees(t, start, resume, flag, before, [call]);
    CommitAgrees(TableAfter(t, seed, before), start, resume, flag, before, call, []);
    forall i, j | 0 <= i < |run| && 0 <= j < |Seen(start, resume, before + [call])|
                  && run[i].pos == Seen(start, resume, before + [call])[j].pos
      ensures run[i] == Seen(start, resume, before + [call])[j]
    {
      var x :| 0 <= x < |load| && load[x] == run[i];
      assert (ShardOf(at), load[x].pos) in stale;
    }
    if next.items != [] {
      FeedUnfolds(Seed(at, run, true).open, at, next.items, next.notes);
    }
  }
}
