/** Which shards a range offers for grafting and which rows it builds, said on what was fed:
    a shard is closed clean exactly when it was left behind with no owned note reported in
    it and no content of it in the store, and a row is built by the call that feeds it
    exactly when its shard is not such a one. */
module ShardVerdicts {
  import opened Prelude
  import opened GraftBuffer
  import opened Accumulation
  import opened AccumulatorLaws

  /** The shards of the owned notes among `n` positions from `pos` on. */
  function NotedAmong(pos: nat, n: nat, notes: seq<nat>): set<nat> {
    set p | p in notes && pos <= p < pos + n :: ShardOf(p)
  }

  /** The shards in which some call reported a note among the positions it fed. */
  function NotedShards(start: nat, calls: seq<Call>): set<nat> {
    if calls == [] then {}
    else
      var before := calls[..|calls| - 1];
      NotedShards(start, before) + NotedAmong(start + |ItemsOf(before)|, |Last(calls).items|, Last(calls).notes)
  }

  /** The shard is built and never grafted: the store held content of it, or it has a note. */
  predicate Tainted(start: nat, flag: bool, noted: set<nat>, shard: nat) {
    (flag && shard == ShardOf(start)) || shard in noted
  }

  ghost predicate Closes(acts: seq<FeedAction>, shard: nat) {
    exists i | 0 <= i < |acts| :: acts[i].CloseCleanShard? && acts[i].shard == shard
  }

  lemma ClosesJoin(a: seq<FeedAction>, b: seq<FeedAction>, shard: nat)
    ensures Closes(a + b, shard) <==> Closes(a, shard) || Closes(b, shard)
  {
    if i :| 0 <= i < |a| && a[i].CloseCleanShard? && a[i].shard == shard {
      assert (a + b)[i] == a[i];
    }
    if i :| 0 <= i < |b| && b[i].CloseCleanShard? && b[i].shard == shard {
      assert (a + b)[|a| + i] == b[i];
    }
  }

  /** Where a range stands: the open shard passes rows through exactly when it is tainted,
      and the shards closed clean are the untainted ones behind it. */
  ghost predicate Verdicts(start: nat, flag: bool, o: OpenShard, next: nat, acts: seq<FeedAction>, noted: set<nat>) {
    && ShardOf(start) <= o.index && o.index * SHARD <= next <= (o.index + 1) * SHARD
    && (forall k | k in noted :: k <= o.index)
    && (o.passthrough <==> Tainted(start, flag, noted, o.index))
    && (forall k: nat ::
          Closes(acts, k) <==> ShardOf(start) <= k < o.index && !Tainted(start, flag, noted, k))
  }

  lemma EnterVerdicts(start: nat, flag: bool, o: OpenShard, next: nat, acts: seq<FeedAction>, noted: set<nat>)
    requires Verdicts(start, flag, o, next, acts, noted)
    ensures var e := Enter(o, ShardOf(next));
            e.open.index == ShardOf(next) && Verdicts(start, flag, e.open, next, acts + e.acts, noted)
  {
    hide ShardOf, Closes;
    TransitionAtBoundary(o.index, next);
    var e := Enter(o, ShardOf(next));
    if o.index == ShardOf(next) {
      assert acts + e.acts == acts;
    } else {
      forall k: nat ensures Closes(acts + e.acts, k) <==> Closes(acts, k) || (k == o.index && !o.passthrough) {
        ClosesJoin(acts, e.acts, k);
        ClosesOnEnter(o, ShardOf(next), k);
      }
    }
  }

  lemma ClosesOnEnter(o: OpenShard, shard: nat, k: nat)
    ensures Closes(Enter(o, shard).acts, k) <==> o.index != shard && k == o.index && !o.passthrough
  {
    var acts := Enter(o, shard).acts;
    if o.index != shard && k == o.index && !o.passthrough {
      assert acts[0].CloseCleanShard? && acts[0].shard == k;
    }
  }

  lemma AbsorbVerdicts(
    start: nat, flag: bool, o: OpenShard, next: nat, acts: seq<FeedAction>, noted: set<nat>, span: seq<Row>, n: nat,
    hasNote: bool)
    requires Verdicts(start, flag, o, next, acts, noted) && next + n <= (o.index + 1) * SHARD
    ensures Verdicts(start, flag, Absorbed(o, span, hasNote), next + n, acts + [AbsorbAction(o, span, hasNote)],
                     noted + if hasNote then {o.index} else {})
  {
    hide ShardOf, Closes;
    var act := AbsorbAction(o, span, hasNote);
    forall k: nat ensures Closes(acts + [act], k) <==> Closes(acts, k) {
      ClosesJoin(acts, [act], k);
      NotAClose(act, k);
    }
  }

  lemma NotAClose(act: FeedAction, shard: nat)
    requires !act.CloseCleanShard?
    ensures !Closes([act], shard)
  {
  }

  /** The first span's share of the notes, and the rest's. */
  lemma NotedSplit(pos: nat, n: nat, notes: seq<nat>)
    requires n > 0
    ensures var len := SpanLen(pos, n);
            NotedAmong(pos, n, notes)
            == (if HasNote(notes, pos, pos + len) then {ShardOf(pos)} else {}) + NotedAmong(pos + len, n - len, notes)
  {
    var len := SpanLen(pos, n);
    var all, rest := NotedAmong(pos, n, notes), NotedAmong(pos + len, n - len, notes);
    if HasNote(notes, pos, pos + len) {
      var i :| 0 <= i < |notes| && pos <= notes[i] < pos + len;
      assert notes[i] in notes && ShardOf(notes[i]) == ShardOf(pos);
    }
    forall k | k in all ensures (HasNote(notes, pos, pos + len) && k == ShardOf(pos)) || k in rest {
      var p :| p in notes && pos <= p < pos + n && ShardOf(p) == k;
      if p < pos + len {
        var i :| 0 <= i < |notes| && notes[i] == p;
        assert HasNote(notes, pos, pos + len);
      }
    }
  }

  lemma NothingNoted(pos: nat, notes: seq<nat>)
    ensures NotedAmong(pos, 0, notes) == {}
  {
  }

  lemma {:induction false} FeedVerdicts(
    start: nat, flag: bool, o: OpenShard, next: nat, acts: seq<FeedAction>, noted: set<nat>, items: seq<Leaf>,
    notes: seq<nat>)
    requires Verdicts(start, flag, o, next, acts, noted)
    ensures var fed := FeedFrom(o, next, items, notes);
            Verdicts(start, flag, fed.open, next + |items|, acts + fed.acts, noted + NotedAmong(next, |items|, notes))
    decreases |items|
  {
    hide Verdicts, ShardOf, NotedAmong, HasNote, RowsAt, Enter, Absorbed, AbsorbAction, FeedFrom;
    if items == [] {
      NothingNoted(next, notes);
      FeedNothing(o, next, notes);
      assert acts + [] == acts && noted + {} == noted;
    } else {
      var len := SpanLen(next, |items|);
      var span, hasNote := RowsAt(next, items[..len]), HasNote(notes, next, next + len);
      FeedUnfolds(o, next, items, notes);
      NotedSplit(next, |items|, notes);
      EnterVerdicts(start, flag, o, next, acts, noted);
      var e := Enter(o, ShardOf(next));
      AbsorbVerdicts(start, flag, e.open, next, acts + e.acts, noted, span, len, hasNote);
      var o', act := Absorbed(e.open, span, hasNote), AbsorbAction(e.open, span, hasNote);
      var noted' := noted + if hasNote then {ShardOf(next)} else {};
      FeedVerdicts(start, flag, o', next + len, acts + e.acts + [act], noted', items[len..], notes);
      var rest := FeedFrom(o', next + len, items[len..], notes).acts;
      assert acts + e.acts + [act] + rest == acts + (e.acts + [act] + rest);
      assert noted' + NotedAmong(next + len, |items| - len, notes) == noted + NotedAmong(next, |items|, notes);
    }
  }

  lemma SeedVerdicts(start: nat, resume: seq<Row>, flag: bool)
    ensures Verdicts(start, flag, Seed(start, resume, flag).open, start, [], {})
  {
  }

  lemma {:induction false} RangeVerdicts(start: nat, resume: seq<Row>, flag: bool, calls: seq<Call>)
    ensures var seed := Seed(start, resume, flag);
            var s := After(seed, calls);
            && s.next == start + |ItemsOf(calls)|
            && Verdicts(start, flag, s.open, s.next, Actions(seed, calls), NotedShards(start, calls))
    decreases |calls|
  {
    hide Verdicts, ShardOf, NotedAmong, FeedFrom;
    if calls == [] {
      SeedVerdicts(start, resume, flag);
    } else {
      var before := calls[..|calls| - 1];
      RangeVerdicts(start, resume, flag, before);
      var seed := Seed(start, resume, flag);
      var mid := After(seed, before);
      FeedVerdicts(start, flag, mid.open, mid.next, Actions(seed, before), NotedShards(start, before),
                   Last(calls).items, Last(calls).notes);
    }
  }

  /** Over any feeds, a shard is closed clean exactly when the range entered it and left it
      for a later one, no call reported a note among the positions of it that it fed, and it
      is not the start's shard with content in the store. */
  lemma CleanCloseIff(start: nat, resume: seq<Row>, flag: bool, calls: seq<Call>, shard: nat)
    ensures Closes(Actions(Seed(start, resume, flag), calls), shard)
            <==> && ItemsOf(calls) != []
                 && ShardOf(start) <= shard < ShardOf(start + |ItemsOf(calls)| - 1)
                 && !(flag && shard == ShardOf(start))
                 && shard !in NotedShards(start, calls)
  {
    hide ShardOf, Closes, NotedShards, Actions, After, Seed;
    RangeVerdicts(start, resume, flag, calls);
    RangeIndex(start, resume, flag, calls);
  }

  ghost predicate BuffersRow(acts: seq<FeedAction>, row: Row) {
    exists i | 0 <= i < |acts| :: acts[i].Buffer? && row in acts[i].rows
  }

  lemma BuffersRowJoin(a: seq<FeedAction>, b: seq<FeedAction>, row: Row)
    requires BuffersRow(a, row) || BuffersRow(b, row)
    ensures BuffersRow(a + b, row)
  {
    if i :| 0 <= i < |a| && a[i].Buffer? && row in a[i].rows {
      assert (a + b)[i] == a[i];
    } else {
      var i :| 0 <= i < |b| && b[i].Buffer? && row in b[i].rows;
      assert (a + b)[|a| + i] == b[i];
    }
  }

  /** A row is built, or buffered, by these actions. */
  ghost predicate Fate(acts: seq<FeedAction>, row: Row, built: bool) {
    if built then BuildsRow(acts, row) else BuffersRow(acts, row)
  }

  lemma FateJoin(a: seq<FeedAction>, b: seq<FeedAction>, row: Row, built: bool)
    requires Fate(a, row, built) || Fate(b, row, built)
    ensures Fate(a + b, row, built)
  {
    hide BuildsRow, BuffersRow;
    if built {
      BuildsRowJoin(a, b, row);
    } else {
      BuffersRowJoin(a, b, row);
    }
  }

  lemma AbsorbFate(o: OpenShard, span: seq<Row>, hasNote: bool, i: nat)
    requires i < |span|
    ensures Fate([AbsorbAction(o, span, hasNote)], span[i], o.passthrough || hasNote)
  {
    var act := AbsorbAction(o, span, hasNote);
    assert [act][0] == act;
    if act.Build? {
      assert act.rows[|o.rows| + i] == span[i];
    }
  }

  /** Notes of later spans lie in later shards. */
  lemma NotedBeyond(pos: nat, n: nat, notes: seq<nat>, shard: nat)
    requires shard < ShardOf(pos)
    ensures shard !in NotedAmong(pos, n, notes)
  {
  }

  lemma SpanEndsShard(pos: nat, n: nat)
    requires n > 0 && SpanLen(pos, n) < n
    ensures ShardOf(pos) < ShardOf(pos + SpanLen(pos, n))
  {
  }

  lemma SpanInShard(pos: nat, n: nat, p: nat)
    requires n > 0 && pos <= p < pos + SpanLen(pos, n)
    ensures ShardOf(p) == ShardOf(pos)
  {
  }

  /** One span's notes decide its own shard. */
  lemma SpanTaints(start: nat, flag: bool, noted: set<nat>, pos: nat, n: nat, notes: seq<nat>)
    requires n > 0
    ensures var hasNote := HasNote(notes, pos, pos + SpanLen(pos, n));
            Tainted(start, flag, noted + NotedAmong(pos, n, notes), ShardOf(pos))
            <==> Tainted(start, flag, noted, ShardOf(pos)) || hasNote
  {
    hide ShardOf, NotedAmong, HasNote;
    var len := SpanLen(pos, n);
    NotedSplit(pos, n, notes);
    if len < n {
      SpanEndsShard(pos, n);
      NotedBeyond(pos + len, n - len, notes, ShardOf(pos));
    } else {
      NothingNoted(pos + len, notes);
    }
  }

  lemma {:induction false} FeedFate(
    start: nat, flag: bool, o: OpenShard, next: nat, acts: seq<FeedAction>, noted: set<nat>, items: seq<Leaf>,
    notes: seq<nat>, p: nat)
    requires Verdicts(start, flag, o, next, acts, noted) && next <= p < next + |items|
    ensures Fate(FeedFrom(o, next, items, notes).acts, RowsAt(next, items)[p - next],
                 Tainted(start, flag, noted + NotedAmong(next, |items|, notes), ShardOf(p)))
    decreases |items|
  {
    hide Verdicts, ShardOf, NotedAmong, HasNote, RowsAt, Enter, Absorbed, AbsorbAction, FeedFrom, Fate, Tainted;
    var len := SpanLen(next, |items|);
    var span, hasNote := RowsAt(next, items[..len]), HasNote(notes, next, next + len);
    FeedUnfolds(o, next, items, notes);
    RowsAtSplit(next, items, len);
    NotedSplit(next, |items|, notes);
    EnterVerdicts(start, flag, o, next, acts, noted);
    var e := Enter(o, ShardOf(next));
    AbsorbVerdicts(start, flag, e.open, next, acts + e.acts, noted, span, len, hasNote);
    var o', act := Absorbed(e.open, span, hasNote), AbsorbAction(e.open, span, hasNote);
    var rest := FeedFrom(o', next + len, items[len..], notes).acts;
    var row, built := RowsAt(next, items)[p - next],
                      Tainted(start, flag, noted + NotedAmong(next, |items|, notes), ShardOf(p));
    if p < next + len {
      SpanInShard(next, |items|, p);
      SpanTaints(start, flag, noted, next, |items|, notes);
      PassesTainted(start, flag, e.open, next, acts + e.acts, noted);
      AbsorbFate(e.open, span, hasNote, p - next);
      FateJoin(e.acts, [act], row, built);
    } else {
      var noted' := noted + if hasNote then {ShardOf(next)} else {};
      FeedFate(start, flag, o', next + len, acts + e.acts + [act], noted', items[len..], notes, p);
      assert noted' + NotedAmong(next + len, |items| - len, notes) == noted + NotedAmong(next, |items|, notes);
    }
    FateJoin(e.acts + [act], rest, row, built);
  }

  lemma PassesTainted(start: nat, flag: bool, o: OpenShard, next: nat, acts: seq<FeedAction>, noted: set<nat>)
    requires Verdicts(start, flag, o, next, acts, noted)
    ensures o.passthrough <==> Tainted(start, flag, noted, o.index)
  {
    hide Tainted;
  }

  /** Over any feeds, a row is built by the very call that feeds it when its shard holds
      content in the store from before, or a note reported by this call or an earlier one,
      and buffered by that call otherwise. */
  lemma RowFate(start: nat, resume: seq<Row>, flag: bool, before: seq<Call>, call: Call, p: nat)
    requires var next := start + |ItemsOf(before)|; next <= p < next + |call.items|
    ensures var s := After(Seed(start, resume, flag), before);
            && s.next == start + |ItemsOf(before)|
            && Fate(FeedActions(s, call), RowsAt(s.next, call.items)[p - s.next],
                    Tainted(start, flag, NotedShards(start, before + [call]), ShardOf(p)))
  {
    hide ShardOf, Verdicts, Fate, Actions, After, Seed, FeedFrom, RowsAt, Tainted;
    RangeVerdicts(start, resume, flag, before);
    var seed := Seed(start, resume, flag);
    var s := After(seed, before);
    FeedFate(start, flag, s.open, s.next, Actions(seed, before), NotedShards(start, before), call.items, call.notes, p);
    assert (before + [call])[..|before|] == before;
  }
}
