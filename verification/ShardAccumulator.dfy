/** The shard accumulator: commitments stream in by position; each shard is buffered until
    an owned note appears in it (built at once from then on) or it closes note-free. */
module Accumulation {
  import opened Prelude
  import opened GraftBuffer

  datatype FeedAction =
    | Build(rows: seq<Row>)
    | CloseCleanShard(shard: nat, rows: seq<Row>)
    | Buffer(rows: seq<Row>)

  datatype OpenShard = OpenShard(index: nat, rows: seq<Row>, passthrough: bool)

  /** A live accumulator: the next position and the shard that is open. */
  datatype AccState = AccState(next: nat, open: OpenShard)

  /** One commitment of the stream, its position implied. */
  datatype Leaf = Leaf(hash: Hash, retention: Retention)

  /** An open shard and what was emitted on the way to it. */
  datatype Fed = Fed(open: OpenShard, acts: seq<FeedAction>)

  // ── What a feed does ─────────────────────────────────────────────────────

  function RowsAt(pos: nat, items: seq<Leaf>): seq<Row> {
    seq(|items|, i requires 0 <= i < |items| => Row(pos + i, items[i].hash, items[i].retention))
  }

  /** How many of `n` items from `pos` on lie in the shard of `pos`. */
  function SpanLen(pos: nat, n: nat): (len: nat)
    ensures len <= n && (n > 0 ==> len > 0)
    ensures ShardOf(pos) * SHARD <= pos && pos + len <= (ShardOf(pos) + 1) * SHARD
    ensures len < n ==> pos + len == (ShardOf(pos) + 1) * SHARD
  {
    Min(n, (ShardOf(pos) + 1) * SHARD - pos)
  }

  /** Close-on-transition: the open shard once the stream is in `shard`. */
  function Enter(o: OpenShard, shard: nat): Fed {
    if o.index == shard then Fed(o, [])
    else
      Fed(OpenShard(shard, [], false),
          if !o.passthrough then [CloseCleanShard(o.index, o.rows)]
          else if o.rows == [] then []
          else [Build(o.rows)])
  }

  predicate HasNote(notes: seq<nat>, from: nat, to: nat) {
    exists i | 0 <= i < |notes| :: from <= notes[i] < to
  }

  function Absorbed(o: OpenShard, span: seq<Row>, noted: bool): OpenShard {
    if o.passthrough || noted then OpenShard(o.index, [], true) else o.(rows := o.rows + span)
  }

  function AbsorbAction(o: OpenShard, span: seq<Row>, noted: bool): FeedAction {
    if o.passthrough || noted then Build(o.rows + span) else Buffer(span)
  }

  /** One shard's span of a feed. */
  function TakeSpan(o: OpenShard, pos: nat, span: seq<Row>, noted: bool): Fed {
    var e := Enter(o, ShardOf(pos));
    Fed(Absorbed(e.open, span, noted), e.acts + [AbsorbAction(e.open, span, noted)])
  }

  function FeedFrom(o: OpenShard, pos: nat, items: seq<Leaf>, notes: seq<nat>): Fed
    decreases |items|
  {
    if items == [] then Fed(o, [])
    else
      var len := SpanLen(pos, |items|);
      var head := TakeSpan(o, pos, RowsAt(pos, items[..len]), HasNote(notes, pos, pos + len));
      var rest := FeedFrom(head.open, pos + len, items[len..], notes);
      Fed(rest.open, head.acts + rest.acts)
  }

  function Seed(start: nat, resume: seq<Row>, storeHasInternals: bool): AccState {
    AccState(start, OpenShard(ShardOf(start), resume, storeHasInternals))
  }

  /** One feed: the next items of the stream and the owned-note positions found with
      them. */
  datatype Call = Call(items: seq<Leaf>, notes: seq<nat>)

  function Feed(s: AccState, call: Call): AccState {
    AccState(s.next + |call.items|, FeedFrom(s.open, s.next, call.items, call.notes).open)
  }

  function FeedActions(s: AccState, call: Call): seq<FeedAction> {
    FeedFrom(s.open, s.next, call.items, call.notes).acts
  }

  /** The open shard never grafts at the range's end: its rows are built. */
  function Finish(s: AccState): seq<FeedAction> {
    if s.open.rows == [] then [] else [Build(s.open.rows)]
  }

  /** The state after a range's feeds so far. */
  function After(s: AccState, calls: seq<Call>): AccState
    decreases |calls|
  {
    if calls == [] then s else Feed(After(s, calls[..|calls| - 1]), Last(calls))
  }

  /** Everything those feeds emitted. */
  function Actions(s: AccState, calls: seq<Call>): seq<FeedAction>
    decreases |calls|
  {
    if calls == [] then []
    else
      var before := calls[..|calls| - 1];
      Actions(s, before) + FeedActions(After(s, before), Last(calls))
  }

  lemma FeedUnfolds(o: OpenShard, pos: nat, items: seq<Leaf>, notes: seq<nat>)
    requires items != []
    ensures var len := SpanLen(pos, |items|);
            var span, noted := RowsAt(pos, items[..len]), HasNote(notes, pos, pos + len);
            var e := Enter(o, ShardOf(pos));
            var rest := FeedFrom(Absorbed(e.open, span, noted), pos + len, items[len..], notes);
            FeedFrom(o, pos, items, notes)
            == Fed(rest.open, (e.acts + [AbsorbAction(e.open, span, noted)]) + rest.acts)
  {
    hide RowsAt, HasNote, ShardOf, Enter, Absorbed, AbsorbAction;
  }

  lemma FeedNothing(o: OpenShard, pos: nat, notes: seq<nat>)
    ensures FeedFrom(o, pos, [], notes) == Fed(o, [])
  {
  }

  // ── The imperative accumulator ───────────────────────────────────────────

  class ShardAccumulator {
    var nextPosition: nat
    /** `None` once the range is finished. */
    var open: Option<OpenShard>

    ghost predicate Live()
      reads this
    {
      open.Some?
    }

    ghost function State(): AccState
      requires Live()
      reads this
    {
      AccState(nextPosition, open.value)
    }

    constructor (start: nat, resume: seq<Row>, storeHasInternals: bool)
      ensures Live() && State() == Seed(start, resume, storeHasInternals)
    {
      nextPosition := start;
      open := Some(OpenShard(ShardOf(start), resume, storeHasInternals));
    }

    /** Close-on-transition, in place; a finished accumulator opens the shard afresh. */
    method EnterShard(shard: nat) returns (closing: seq<FeedAction>)
      modifies this`open
      ensures open.Some?
      ensures Fed(open.value, closing)
              == Enter(if old(open).Some? then old(open).value else OpenShard(shard, [], false), shard)
    {
      closing := [];
      if open.Some? && open.value.index != shard {
        var closed := open.value;
        if !closed.passthrough {
          closing := [CloseCleanShard(closed.index, closed.rows)];
        } else if closed.rows != [] {
          closing := [Build(closed.rows)];
        }
        open := Some(OpenShard(shard, [], false));
      } else if open.None? {
        open := Some(OpenShard(shard, [], false));
      }
    }

    method AbsorbSpan(span: seq<Row>, noted: bool) returns (action: FeedAction)
      requires Live()
      modifies this`open
      ensures Live() && open.value == Absorbed(old(open.value), span, noted)
      ensures action == AbsorbAction(old(open.value), span, noted)
    {
      var o := open.value;
      if o.passthrough {
        assert o.rows == [] ==> o.rows + span == span;
        action := Build(if o.rows == [] then span else o.rows + span);
        open := Some(o.(rows := []));
      } else if noted {
        action := Build(o.rows + span);
        open := Some(OpenShard(o.index, [], true));
      } else {
        action := Buffer(span);
        open := Some(o.(rows := o.rows + span));
      }
    }

    /** The state a feed starts from; a finished accumulator starts its shard afresh. */
    ghost function Resumed(): AccState
      reads this
    {
      AccState(nextPosition, if open.Some? then open.value else OpenShard(ShardOf(nextPosition), [], false))
    }

    /** The source's loop over shard spans computes `Feed`. */
    method FeedItems(start: nat, items: seq<Leaf>, notes: seq<nat>) returns (actions: seq<FeedAction>)
      requires start == nextPosition
      modifies this
      ensures Resumed() == Feed(old(Resumed()), Call(items, notes))
      ensures actions == FeedActions(old(Resumed()), Call(items, notes))
      ensures items == [] ==> open == old(open)
      ensures items != [] ==> Live()
    {
      hide RowsAt, HasNote, ShardOf, FeedFrom, TakeSpan, Enter, Absorbed, AbsorbAction;
      actions := [];
      var pos, rest := start, items;
      ghost var whole := FeedFrom(Resumed().open, start, items, notes);
      ghost var left := whole.acts;
      while rest != []
        invariant if rest == items then open == old(open) && pos == start else Live()
        invariant nextPosition == start && pos + |rest| == start + |items|
        invariant FeedFrom(Resumed().open, pos, rest, notes) == Fed(whole.open, left)
        invariant actions + left == whole.acts
        decreases |rest|
      {
        var len := SpanLen(pos, |rest|);
        var span, noted := RowsAt(pos, rest[..len]), HasNote(notes, pos, pos + len);
        FeedUnfolds(Resumed().open, pos, rest, notes);
        var closing := EnterShard(ShardOf(pos));
        var action := AbsorbSpan(span, noted);
        ghost var done := actions;
        left := FeedFrom(open.value, pos + len, rest[len..], notes).acts;
        actions := actions + (closing + [action]);
        assert done + ((closing + [action]) + left) == actions + left;
        pos, rest := pos + len, rest[len..];
      }
      FeedNothing(Resumed().open, pos, notes);
      nextPosition := pos;
    }

    /** Range end: whatever is pending is built, and nothing stays open. */
    method FinishRange() returns (action: Option<FeedAction>)
      modifies this
      ensures old(open).None? ==> action.None?
      ensures old(open).Some? ==> (if action.Some? then [action.value] else []) == Finish(old(State()))
      ensures open == None && nextPosition == old(nextPosition)
    {
      action := None;
      if open.Some? && open.value.rows != [] {
        action := Some(Build(open.value.rows));
      }
      open := None;
    }
  }
}
