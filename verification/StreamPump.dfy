/** One worker's side of a plan chunk: the byte-budgeted splitter, the pump that
    turns a block stream into sub-chunks, and the retry loop that resumes after
    the last sub-chunk handed on. */
module StreamPump {
  import opened Prelude
  import opened FetchPlanning

  /** A compact block as the fetch stage sees it; `size` is its encoded length
      and an empty `prevHash` means the server sent none. */
  datatype Block = Block(height: nat, hash: seq<nat>, prevHash: seq<nat>, size: nat)

  datatype SubChunk = SubChunk(
    plan: nat,
    sub: nat,
    isLast: bool,
    bytes: nat,
    blocks: seq<Block>,
    /** Ahead-budget permits held; `None` for a sub-chunk admitted as the floor. */
    permit: Option<nat>)

  datatype Cursor = Cursor(plan: nat, end: int, resumeFrom: nat, nextSub: nat, emitted: bool)

  /** What the stream yields next. `late` says the flush deadline had passed when
      the block arrived; `Broken` is a stream error or the idle timeout. */
  datatype StreamItem = Received(block: Block, late: bool) | CleanEnd | Broken

  datatype Emission = Emission(blocks: seq<Block>, isLast: bool)

  /** What the pump does once its emission (if any) has been handed on. */
  datatype Then = Continue(acc: seq<Block>) | Complete | Fail

  datatype Reaction = Reaction(emit: Option<Emission>, after: Then)

  function TotalSize(blocks: seq<Block>): nat {
    if blocks == [] then 0 else TotalSize(blocks[..|blocks| - 1]) + Last(blocks).size
  }

  ghost predicate Consecutive(blocks: seq<Block>, from: int) {
    forall i | 0 <= i < |blocks| :: blocks[i].height == from + i
  }

  /** The blocks of a plan chunk's sub-chunks, in emission order. */
  function BlocksOf(subs: seq<SubChunk>): seq<Block> {
    if subs == [] then [] else BlocksOf(subs[..|subs| - 1]) + Last(subs).blocks
  }

  // ── The splitter ─────────────────────────────────────────────────────────

  predicate Overflows(acc: seq<Block>, b: Block, split: nat) {
    acc != [] && TotalSize(acc) + b.size > split
  }

  class ChunkSplitter {
    const splitBytes: nat
    var acc: seq<Block>
    var accBytes: nat

    ghost predicate Valid()
      reads this
    {
      accBytes == TotalSize(acc)
    }

    constructor (split: nat)
      ensures Valid() && acc == [] && splitBytes == split
    {
      splitBytes := split;
      acc := [];
      accBytes := 0;
    }

    /** Yields the accumulated sub-chunk exactly when the block would overflow the
        budget; the block then opens the next one. Nothing is lost or reordered. */
    method Push(block: Block) returns (completed: Option<(seq<Block>, nat)>)
      requires Valid()
      modifies this
      ensures Valid()
      ensures completed.Some? <==> Overflows(old(acc), block, splitBytes)
      ensures completed.Some? ==> completed.value == (old(acc), TotalSize(old(acc)))
      ensures acc == if completed.Some? then [block] else old(acc) + [block]
    {
      completed := None;
      if acc != [] && accBytes + block.size > splitBytes {
        completed := Some((acc, accBytes));
        acc := [];
        accBytes := 0;
      }
      assert (acc + [block])[..|acc|] == acc;
      acc := acc + [block];
      accBytes := accBytes + block.size;
    }

    /** Hands over whatever has accumulated and starts again from empty. */
    method TakePartial() returns (partial: Option<(seq<Block>, nat)>)
      requires Valid()
      modifies this
      ensures Valid() && acc == []
      ensures partial == if old(acc) == [] then None else Some((old(acc), TotalSize(old(acc))))
    {
      if acc == [] {
        return None;
      }
      partial := Some((acc, accBytes));
      acc := [];
      accBytes := 0;
    }
  }

  // ── The pump ─────────────────────────────────────────────────────────────

  predicate EndsAt(blocks: seq<Block>, end: int) {
    blocks != [] && Last(blocks).height == end
  }

  /** A failing attempt hands on its tail unless the tail ends the plan chunk. */
  function FlushThenFail(end: int, acc: seq<Block>): Reaction {
    if acc != [] && !EndsAt(acc, end) then
      Reaction(Some(Emission(acc, false)), Fail)
    else
      Reaction(None, Fail)
  }

  /** One turn of the pump's loop with `acc` in the splitter. */
  function React(end: int, split: nat, acc: seq<Block>, item: StreamItem): Reaction {
    match item
    case Broken => FlushThenFail(end, acc)
    case CleanEnd =>
      if EndsAt(acc, end) then Reaction(Some(Emission(acc, true)), Complete)
      else FlushThenFail(end, acc)
    case Received(b, late) =>
      if Overflows(acc, b, split) then Reaction(Some(Emission(acc, false)), Continue([b]))
      else if late && b.height != end then Reaction(Some(Emission(acc + [b], false)), Continue([]))
      else Reaction(None, Continue(acc + [b]))
  }

  function SubChunkFor(c: Cursor, e: Emission, permit: Option<nat>): SubChunk {
    SubChunk(c.plan, c.nextSub, e.isLast, TotalSize(e.blocks), e.blocks, permit)
  }

  /** The cursor after a sub-chunk was handed on. */
  function Advanced(c: Cursor, blocks: seq<Block>): Cursor
    requires blocks != []
  {
    c.(resumeFrom := Last(blocks).height + 1, nextSub := c.nextSub + 1, emitted := true)
  }

  datatype PumpResult = PumpResult(cursor: Cursor, subs: seq<SubChunk>, completed: bool)

  /** The cursor and the sub-chunks handed on after a turn of the pump. */
  function HandOn(c: Cursor, subs: seq<SubChunk>, emit: Option<Emission>): (Cursor, seq<SubChunk>)
    requires emit.Some? ==> emit.value.blocks != []
  {
    if emit.None? then (c, subs)
    else (Advanced(c, emit.value.blocks), subs + [SubChunkFor(c, emit.value, None)])
  }

  /** What the pump yields on a stream's items, after the sub-chunks `subs`; a stream
      that yields no more items goes silent, which the idle timeout turns into
      `Broken`. */
  function PumpRun(
    c: Cursor, split: nat, acc: seq<Block>, items: seq<StreamItem>, subs: seq<SubChunk>): PumpResult
    decreases |items|
  {
    var item := if items == [] then Broken else items[0];
    var r := React(c.end, split, acc, item);
    var (c', subs') := HandOn(c, subs, r.emit);
    match r.after
    case Complete => PumpResult(c', subs', true)
    case Fail => PumpResult(c', subs', false)
    case Continue(acc') => PumpRun(c', split, acc', items[1..], subs')
  }

  /** Whatever a pump has handed on stays a prefix of what it hands on in all. */
  lemma {:induction false} PumpExtends(
    c: Cursor, split: nat, acc: seq<Block>, items: seq<StreamItem>, subs: seq<SubChunk>)
    ensures subs <= PumpRun(c, split, acc, items, subs).subs
    ensures |PumpRun(c, split, acc, items, subs).subs| <= |subs| + |items| + 1
    decreases |items|
  {
    hide TotalSize;
    var item := if items == [] then Broken else items[0];
    var r := React(c.end, split, acc, item);
    var (c', subs') := HandOn(c, subs, r.emit);
    if r.after.Continue? {
      PumpExtends(c', split, r.after.acc, items[1..], subs');
    }
  }

  /** Hands one sub-chunk on, unless the reorder stage is gone; only a hand-on moves the
      cursor. */
  method Emit(cursor: Cursor, subs: seq<SubChunk>, e: Emission, taken: nat, room: nat)
    returns (sent: bool, cursor': Cursor, subs': seq<SubChunk>)
    requires e.blocks != []
    ensures sent <==> taken < room
    ensures (cursor', subs') == if sent then HandOn(cursor, subs, Some(e)) else (cursor, subs)
  {
    sent, cursor', subs' := taken < room, cursor, subs;
    if sent {
      subs' := subs + [SubChunkFor(cursor, e, None)];
      cursor' := Advanced(cursor, e.blocks);
    }
  }

  /** Where the cursor stands once these sub-chunks have been handed on. */
  predicate StandsAfter(start: Cursor, before: seq<SubChunk>, cursor: Cursor, subs: seq<SubChunk>) {
    && |before| <= |subs| && cursor.plan == start.plan && cursor.end == start.end
    && cursor.nextSub == start.nextSub + (|subs| - |before|)
    && (if |subs| == |before| then cursor == start
        else Last(subs).blocks != [] && cursor.resumeFrom == Last(Last(subs).blocks).height + 1)
  }

  /** Puts one block into the splitter, and takes what it yields or what has waited too
      long. */
  method TakeBlock(splitter: ChunkSplitter, block: Block, late: bool, end: int) returns (done: Option<seq<Block>>)
    requires splitter.Valid()
    modifies splitter
    ensures splitter.Valid()
    ensures done.Some? ==> done.value != []
    ensures React(end, splitter.splitBytes, old(splitter.acc), Received(block, late))
            == Reaction(if done.Some? then Some(Emission(done.value, false)) else None, Continue(splitter.acc))
  {
    var yielded := splitter.Push(block);
    if yielded.None? && late && block.height != end {
      yielded := splitter.TakePartial();
    }
    done := if yielded.Some? then Some(yielded.value.0) else None;
  }

  /** The pump's loop over the splitter computes exactly `PumpRun`, as long as the reorder
      stage takes the sub-chunks. When it is gone after `room` of them the pump stops
      quietly: it has handed on exactly the first `room`, and the cursor stands right after
      them. Admission and channel waits only delay an emission, so they are not part of
      it. */
  method PumpBlockStream(stream: seq<StreamItem>, start: Cursor, split: nat, before: seq<SubChunk>, room: nat)
    returns (cursor: Cursor, subs: seq<SubChunk>, completed: bool, gone: bool)
    ensures var whole := PumpRun(start, split, [], stream, before);
            && (gone <==> |whole.subs| > |before| + room)
            && (!gone ==> PumpResult(cursor, subs, completed) == whole)
            && (gone ==> !completed && subs == whole.subs[..|before| + room])
            && (gone ==> StandsAfter(start, before, cursor, subs))
  {
    hide TotalSize, React, PumpRun, StandsAfter;
    StandsAtStart(start, before);
    var splitter := new ChunkSplitter(split);
    cursor, subs, completed, gone := start, before, false, false;
    ghost var whole := PumpRun(start, split, [], stream, before);
    var n := 0;
    assert stream[0..] == stream;
    while n < |stream| && stream[n].Received?
      invariant 0 <= n <= |stream| && !gone && !completed
      invariant splitter.Valid() && splitter.splitBytes == split && fresh(splitter)
      invariant whole == PumpRun(cursor, split, splitter.acc, stream[n..], subs)
      invariant |before| <= |subs| <= |before| + room && StandsAfter(start, before, cursor, subs)
    {
      ghost var acc0, c0, subs0 := splitter.acc, cursor, subs;
      var done := TakeBlock(splitter, stream[n].block, stream[n].late, cursor.end);
      ghost var emit := if done.Some? then Some(Emission(done.value, false)) else None;
      PumpTurn(c0, split, acc0, stream[n..], subs0);
      if done.Some? {
        var sent;
        sent, cursor, subs := Emit(cursor, subs, Emission(done.value, false), |subs| - |before|, room);
        StandsOn(start, before, c0, subs0, Emission(done.value, false));
        if !sent {
          var (c', subs') := HandOn(c0, subs0, emit);
          PumpExtends(c', split, splitter.acc, stream[n..][1..], subs');
          PrefixOf(subs0, subs', whole.subs);
          gone := true;
          return;
        }
      }
      assert stream[n..][1..] == stream[n + 1..];
      n := n + 1;
    }
    completed := n < |stream| && stream[n].CleanEnd? && EndsAt(splitter.acc, cursor.end);
    PumpLast(cursor, split, splitter.acc, stream[n..], subs);
    if completed || (splitter.acc != [] && !EndsAt(splitter.acc, cursor.end)) {
      var e := Emission(splitter.acc, completed);
      ghost var subs0 := subs;
      var sent;
      sent, cursor, subs := Emit(cursor, subs, e, |subs| - |before|, room);
      if !sent {
        PrefixOf(subs0, whole.subs, whole.subs);
        completed, gone := false, true;
      }
    }
  }

  lemma StandsAtStart(start: Cursor, before: seq<SubChunk>)
    ensures StandsAfter(start, before, start, before)
  {
  }

  lemma StandsOn(start: Cursor, before: seq<SubChunk>, cursor: Cursor, subs: seq<SubChunk>, e: Emission)
    requires StandsAfter(start, before, cursor, subs) && e.blocks != []
    ensures var (cursor', subs') := HandOn(cursor, subs, Some(e)); StandsAfter(start, before, cursor', subs')
  {
  }

  /** The turn that ends a pump: a finished chunk is completed, anything else is flushed and
      fails. */
  lemma PumpLast(c: Cursor, split: nat, acc: seq<Block>, items: seq<StreamItem>, subs: seq<SubChunk>)
    requires items == [] || !items[0].Received?
    ensures var completed := items != [] && items[0].CleanEnd? && EndsAt(acc, c.end);
            var emits := completed || (acc != [] && !EndsAt(acc, c.end));
            var (c', subs') := HandOn(c, subs, if emits then Some(Emission(acc, completed)) else None);
            PumpRun(c, split, acc, items, subs) == PumpResult(c', subs', completed)
  {
    hide TotalSize;
  }

  lemma PrefixOf(a: seq<SubChunk>, b: seq<SubChunk>, whole: seq<SubChunk>)
    requires a <= b <= whole
    ensures a == whole[..|a|]
  {
  }

  lemma PumpTurn(
    c: Cursor, split: nat, acc: seq<Block>, items: seq<StreamItem>, subs: seq<SubChunk>)
    requires items != [] && React(c.end, split, acc, items[0]).after.Continue?
    ensures var r := React(c.end, split, acc, items[0]);
            var (c', subs') := HandOn(c, subs, r.emit);
            PumpRun(c, split, acc, items, subs) == PumpRun(c', split, r.after.acc, items[1..], subs')
  {
  }

  // ── What a well-behaved stream yields ────────────────────────────────────

  /** The stream opened at `from` yields consecutive heights from there, never past
      `end`; it may end, break or go silent at any point. */
  ghost predicate WellBehaved(items: seq<StreamItem>, from: int, end: int) {
    forall i | 0 <= i < |items| ::
      items[i].Received? ==> items[i].block.height == from + i <= end
  }

  ghost predicate WithinSplit(sub: SubChunk, split: nat) {
    && sub.blocks != [] && sub.bytes == TotalSize(sub.blocks)
    && (sub.bytes <= split || |sub.blocks| == 1)
  }

  /** `subs` continue plan chunk `c.plan` from the cursor: dense indices, heights
      exactly `c.resumeFrom, …, next - 1`, and `isLast` on nothing but a final
      sub-chunk that ends at `c.end`. */
  ghost predicate Continues(c: Cursor, subs: seq<SubChunk>, next: int, completed: bool, split: nat) {
    && (forall j | 0 <= j < |subs| ::
          subs[j].plan == c.plan && subs[j].sub == c.nextSub + j && WithinSplit(subs[j], split))
    && (forall j | 0 <= j < |subs| :: subs[j].isLast <==> completed && j == |subs| - 1)
    && Consecutive(BlocksOf(subs), c.resumeFrom)
    && next == c.resumeFrom + |BlocksOf(subs)|
    && (if completed then subs != [] && next == c.end + 1 else next <= c.end)
  }

  ghost predicate AccReady(c: Cursor, split: nat, acc: seq<Block>) {
    && Consecutive(acc, c.resumeFrom)
    && c.resumeFrom + |acc| <= c.end + 1
    && c.resumeFrom <= c.end
    && (TotalSize(acc) <= split || |acc| <= 1)
  }

  /** Handing on one more sub-chunk continues the run. */
  lemma ContinuesSnoc(
    first: Cursor, c: Cursor, subs: seq<SubChunk>, e: Emission, split: nat)
    requires Continues(first, subs, c.resumeFrom, false, split)
    requires c.plan == first.plan && c.end == first.end && c.nextSub == first.nextSub + |subs|
    requires e.blocks != [] && Consecutive(e.blocks, c.resumeFrom)
    requires if e.isLast then EndsAt(e.blocks, c.end) else Last(e.blocks).height < c.end
    requires TotalSize(e.blocks) <= split || |e.blocks| == 1
    ensures Continues(first, subs + [SubChunkFor(c, e, None)], Advanced(c, e.blocks).resumeFrom,
                      e.isLast, split)
  {
    var sub := SubChunkFor(c, e, None);
    assert (subs + [sub])[..|subs|] == subs;
  }

  /** Retry exactness, one attempt: on a well-behaved stream the pump continues the
      plan chunk exactly from its cursor, whatever the stream does at the end. */
  lemma {:induction false} PumpContinues(
    first: Cursor, c: Cursor, split: nat, acc: seq<Block>, items: seq<StreamItem>, subs: seq<SubChunk>)
    requires Continues(first, subs, c.resumeFrom, false, split)
    requires c.plan == first.plan && c.end == first.end && c.nextSub == first.nextSub + |subs|
    requires AccReady(c, split, acc)
    requires WellBehaved(items, c.resumeFrom + |acc|, c.end)
    ensures var r := PumpRun(c, split, acc, items, subs);
            && Continues(first, r.subs, r.cursor.resumeFrom, r.completed, split)
            && r.cursor.plan == c.plan && r.cursor.end == c.end
            && r.cursor.nextSub == first.nextSub + |r.subs|
            && c.resumeFrom <= r.cursor.resumeFrom
            && (r.cursor.emitted <==> c.emitted || c.resumeFrom < r.cursor.resumeFrom)
    decreases |items|
  {
    hide React, TotalSize, EndsAt;
    var item := if items == [] then Broken else items[0];
    var r := React(c.end, split, acc, item);
    TurnEmits(c, split, acc, item);
    var (c', subs') := HandOn(c, subs, r.emit);
    if r.emit.Some? {
      ContinuesSnoc(first, c, subs, r.emit.value, split);
    }
    if r.after.Continue? {
      TurnKeeps(c, split, acc, item);
      PumpContinues(first, c', split, r.after.acc, items[1..], subs');
    }
  }

  /** One turn on a well-behaved item: what it emits is the next run of heights. */
  lemma TurnEmits(c: Cursor, split: nat, acc: seq<Block>, item: StreamItem)
    requires AccReady(c, split, acc)
    requires item.Received? ==> item.block.height == c.resumeFrom + |acc| <= c.end
    ensures var r := React(c.end, split, acc, item);
            && (r.emit.Some? ==>
                  var e := r.emit.value;
                  && e.blocks != [] && Consecutive(e.blocks, c.resumeFrom)
                  && (if e.isLast then EndsAt(e.blocks, c.end) else Last(e.blocks).height < c.end)
                  && (e.isLast <==> r.after.Complete?)
                  && (TotalSize(e.blocks) <= split || |e.blocks| == 1))
            && (r.emit.None? ==> !r.after.Complete?)
  {
    hide TotalSize;
    match item
    case Broken =>
    case CleanEnd =>
    case Received(b, late) => TotalSizeSnoc(acc, item);
  }

  /** … and what it keeps follows on. */
  lemma TurnKeeps(c: Cursor, split: nat, acc: seq<Block>, item: StreamItem)
    requires AccReady(c, split, acc)
    requires item.Received? ==> item.block.height == c.resumeFrom + |acc| <= c.end
    requires React(c.end, split, acc, item).after.Continue?
    ensures var r := React(c.end, split, acc, item);
            var c' := if r.emit.Some? then Advanced(c, r.emit.value.blocks) else c;
            && AccReady(c', split, r.after.acc)
            && item.Received?
            && c'.resumeFrom + |r.after.acc| == c.resumeFrom + |acc| + 1
  {
    hide TotalSize;
    TotalSizeSnoc(acc, item);
    if item.Received? {
      var grown := acc + [item.block];
      assert Last(grown) == item.block && (acc != [] ==> Last(acc).height == c.resumeFrom + |acc| - 1);
    }
  }

  lemma TotalSizeSnoc(acc: seq<Block>, item: StreamItem)
    ensures TotalSize([]) == 0
    ensures item.Received? ==> TotalSize(acc + [item.block]) == TotalSize(acc) + item.block.size
  {
    if item.Received? {
      assert (acc + [item.block])[..|acc|] == acc;
    }
  }

  // ── What any stream yields ───────────────────────────────────────────────

  /** The items before the stream ends, breaks or goes silent. */
  function Leading(items: seq<StreamItem>): (n: nat)
    ensures n <= |items| && (n < |items| ==> !items[n].Received?)
  {
    if items == [] || !items[0].Received? then 0 else 1 + Leading(items[1..])
  }

  /** Their blocks. */
  function ReceivedBlocks(items: seq<StreamItem>): seq<Block> {
    if items == [] || !items[0].Received? then [] else [items[0].block] + ReceivedBlocks(items[1..])
  }

  predicate EndsCleanly(items: seq<StreamItem>) {
    Leading(items) < |items| && items[Leading(items)].CleanEnd?
  }

  lemma {:induction false} LeadingIsReceived(items: seq<StreamItem>)
    ensures |ReceivedBlocks(items)| == Leading(items)
    ensures forall i | 0 <= i < Leading(items) :: items[i].Received? && ReceivedBlocks(items)[i] == items[i].block
  {
    if items != [] && items[0].Received? {
      LeadingIsReceived(items[1..]);
    }
  }

  /** A turn that takes a block hands on or keeps what was there and the block. */
  lemma TurnConserves(c: Cursor, split: nat, acc: seq<Block>, item: StreamItem, subs: seq<SubChunk>)
    requires item.Received? && (TotalSize(acc) <= split || |acc| <= 1)
    ensures var r := React(c.end, split, acc, item);
            && r.after.Continue? && (r.emit.Some? ==> r.emit.value.blocks != [])
            && var (c', subs') := HandOn(c, subs, r.emit);
            && c'.end == c.end
            && BlocksOf(subs') + r.after.acc == BlocksOf(subs) + (acc + [item.block])
            && (TotalSize(r.after.acc) <= split || |r.after.acc| <= 1)
            && (r.after.acc == [] ==> item.block.height != c.end)
            && (r.after.acc != [] ==> Last(r.after.acc) == item.block)
  {
    hide TotalSize, BlocksOf;
    var r := React(c.end, split, acc, item);
    TotalSizeSnoc(acc, item);
    if r.emit.Some? {
      BlocksSnoc(subs, SubChunkFor(c, r.emit.value, None));
    }
  }

  /** The blocks `all` received in an attempt are handed on, in order, but for `kept`: a tail
      that ends the chunk at `end` without a clean end. */
  ghost predicate HandedOn(
    before: seq<SubChunk>, all: seq<Block>, clean: bool, end: int, r: PumpResult, kept: seq<Block>)
  {
    && BlocksOf(r.subs) + kept == BlocksOf(before) + all
    && (r.completed <==> clean && EndsAt(all, end))
    && (if EndsAt(all, end) && !clean then EndsAt(kept, end) else kept == [])
  }

  /** The last turn hands on everything but a tail that ends the chunk without a clean
      end. */
  lemma LastConserves(c: Cursor, split: nat, acc: seq<Block>, items: seq<StreamItem>, subs: seq<SubChunk>)
    requires items == [] || !items[0].Received?
    ensures var kept := if EndsAt(acc, c.end) && !EndsCleanly(items) then acc else [];
            HandedOn(subs, acc + ReceivedBlocks(items), EndsCleanly(items), c.end,
                     PumpRun(c, split, acc, items, subs), kept)
  {
    hide TotalSize, BlocksOf, PumpRun;
    PumpLast(c, split, acc, items, subs);
    var r := PumpRun(c, split, acc, items, subs);
    assert acc + [] == acc;
    if r.subs != subs {
      BlocksSnoc(subs, Last(r.subs));
    }
  }

  lemma ReceivedStep(items: seq<StreamItem>)
    requires items != [] && items[0].Received?
    ensures ReceivedBlocks(items) == [items[0].block] + ReceivedBlocks(items[1..])
    ensures EndsCleanly(items) == EndsCleanly(items[1..])
  {
  }

  /** What is handed on of the rest is handed on of the whole. */
  lemma HandedOnEarlier(
    subs: seq<SubChunk>, acc: seq<Block>, b: Block, subs': seq<SubChunk>, acc': seq<Block>, rest: seq<Block>,
    clean: bool, end: int, r: PumpResult, kept: seq<Block>)
    requires BlocksOf(subs') + acc' == BlocksOf(subs) + (acc + [b])
    requires acc' == [] ==> b.height != end
    requires acc' != [] ==> Last(acc') == b
    requires HandedOn(subs', acc' + rest, clean, end, r, kept)
    ensures HandedOn(subs, acc + [b] + rest, clean, end, r, kept)
  {
    hide BlocksOf;
    Regroup(BlocksOf(subs'), acc', BlocksOf(subs), acc + [b], rest);
    if rest == [] {
      assert acc' + rest == acc' && acc + [b] + rest == acc + [b] && Last(acc + [b]) == b;
    } else {
      assert Last(acc' + rest) == Last(rest) == Last(acc + [b] + rest);
    }
  }

  /** Whatever the stream delivers is handed on, block by block and in order, and an
      attempt completes exactly when the stream ends cleanly on the chunk's end. Only a
      tail that ends the chunk without a clean end is kept back, and it fits one
      sub-chunk. */
  lemma {:induction false} PumpConserves(
    c: Cursor, split: nat, acc: seq<Block>, items: seq<StreamItem>, subs: seq<SubChunk>) returns (kept: seq<Block>)
    requires TotalSize(acc) <= split || |acc| <= 1
    ensures HandedOn(subs, acc + ReceivedBlocks(items), EndsCleanly(items), c.end,
                     PumpRun(c, split, acc, items, subs), kept)
    ensures TotalSize(kept) <= split || |kept| <= 1
    decreases |items|
  {
    hide TotalSize, BlocksOf, React, PumpRun, HandOn, HandedOn, EndsAt, EndsCleanly, ReceivedBlocks;
    if items == [] || !items[0].Received? {
      LastConserves(c, split, acc, items, subs);
      kept := if EndsAt(acc, c.end) && !EndsCleanly(items) then acc else [];
    } else {
      var r, b := React(c.end, split, acc, items[0]), items[0].block;
      TurnConserves(c, split, acc, items[0], subs);
      PumpTurn(c, split, acc, items, subs);
      ReceivedStep(items);
      var (c', subs') := HandOn(c, subs, r.emit);
      kept := PumpConserves(c', split, r.after.acc, items[1..], subs');
      var rest := ReceivedBlocks(items[1..]);
      HandedOnEarlier(subs, acc, b, subs', r.after.acc, rest, EndsCleanly(items), c.end,
                      PumpRun(c, split, acc, items, subs), kept);
      assert acc + ([b] + rest) == acc + [b] + rest;
    }
  }

  /** A sub-chunk of the blocks `a` had no room for the first of the blocks `b`. */
  predicate Tight(a: seq<Block>, b: seq<Block>, split: nat) {
    b != [] ==> a != [] && TotalSize(a) + b[0].size > split
  }

  /** No sub-chunk from the `from`-th on had room for the block that follows it, in the next
      sub-chunk or in the splitter. */
  ghost predicate Full(subs: seq<SubChunk>, from: nat, acc: seq<Block>, split: nat) {
    && (forall i, j | from <= i < j < |subs| && j == i + 1 :: Tight(subs[i].blocks, subs[j].blocks, split))
    && (from < |subs| ==> Tight(Last(subs).blocks, acc, split))
  }

  lemma FullSnoc(subs: seq<SubChunk>, from: nat, acc: seq<Block>, split: nat, sub: SubChunk, acc': seq<Block>)
    requires Full(subs, from, acc, split) && sub.blocks == acc && Tight(acc, acc', split)
    ensures Full(subs + [sub], from, acc', split)
  {
    hide Tight;
    var longer := subs + [sub];
    forall i, j | from <= i < j < |longer| && j == i + 1 ensures Tight(longer[i].blocks, longer[j].blocks, split) {
      if j < |subs| {
        assert longer[i] == subs[i] && longer[j] == subs[j];
      } else {
        assert longer[i] == Last(subs) && longer[j] == sub;
      }
    }
  }

  /** While no block comes late, sub-chunks are as long as the budget lets them be. */
  lemma {:induction false} SplitsGreedily(
    c: Cursor, split: nat, acc: seq<Block>, items: seq<StreamItem>, subs: seq<SubChunk>, from: nat)
    requires forall i | 0 <= i < |items| :: items[i].Received? ==> !items[i].late
    requires Full(subs, from, acc, split)
    requires from < |subs| ==> acc != []
    ensures Full(PumpRun(c, split, acc, items, subs).subs, from, [], split)
    decreases |items|
  {
    hide TotalSize, PumpRun, Full;
    if items == [] || !items[0].Received? {
      PumpLast(c, split, acc, items, subs);
      FullRest(subs, from, acc, split, []);
      if acc != [] {
        FullSnoc(subs, from, acc, split, SubChunkFor(c, Emission(acc, true), None), []);
        FullSnoc(subs, from, acc, split, SubChunkFor(c, Emission(acc, false), None), []);
      }
    } else {
      var r := React(c.end, split, acc, items[0]);
      PumpTurn(c, split, acc, items, subs);
      if r.emit.Some? {
        FullSnoc(subs, from, acc, split, SubChunkFor(c, r.emit.value, None), r.after.acc);
      } else {
        FullRest(subs, from, acc, split, acc + [items[0].block]);
      }
      var (c', subs') := HandOn(c, subs, r.emit);
      SplitsGreedily(c', split, r.after.acc, items[1..], subs', from);
    }
  }

  /** What the splitter holds counts only by its first block. */
  lemma FullRest(subs: seq<SubChunk>, from: nat, acc: seq<Block>, split: nat, acc': seq<Block>)
    requires Full(subs, from, acc, split)
    requires from < |subs| && acc' != [] ==> acc != [] && acc'[0] == acc[0]
    ensures Full(subs, from, acc', split)
  {
    hide TotalSize;
    if from < |subs| {
      assert Tight(Last(subs).blocks, acc, split);
    }
  }

  /** A block that comes late, and is not the chunk's last, leaves nothing waiting from
      before it, and waits itself only where the blocks before it filled a sub-chunk. */
  lemma LateHandsOn(end: int, split: nat, acc: seq<Block>, b: Block)
    requires b.height != end
    ensures var r := React(end, split, acc, Received(b, true));
            && r.emit.Some? && r.after.Continue? && r.emit.value.blocks + r.after.acc == acc + [b]
            && (r.after.acc != [] ==> r.after.acc == [b] && TotalSize(acc) + b.size > split)
  {
    assert acc + [b] + [] == acc + [b];
  }

  lemma Regroup(a: seq<Block>, b: seq<Block>, c: seq<Block>, d: seq<Block>, rest: seq<Block>)
    requires a + b == c + d
    ensures a + (b + rest) == c + (d + rest)
  {
    assert a + (b + rest) == (a + b) + rest && c + (d + rest) == (c + d) + rest;
  }

  lemma BlocksSnoc(subs: seq<SubChunk>, sub: SubChunk)
    ensures BlocksOf(subs + [sub]) == BlocksOf(subs) + sub.blocks
  {
    assert (subs + [sub])[..|subs|] == subs;
  }

  // ── The retry loop ───────────────────────────────────────────────────────

  /** The number of the next attempt after a failed one, or `None` once the budget
      of consecutive zero-progress attempts is spent. */
  function NextAttempt(attempt: nat, emitted: bool, retries: nat): Option<nat> {
    var a := if emitted then 0 else attempt;
    if a > retries then None else Some(a + 1)
  }

  datatype Attempt = OpenFailed | Served(items: seq<StreamItem>)

  datatype ChunkOutcome = Completed | GaveUp

  /** The stream attempts `blocks` blocks not yet handed on may still take in all. */
  function AttemptBudget(blocks: int, retries: nat): nat
    decreases blocks
  {
    if blocks <= 0 then 0 else retries + 1 + AttemptBudget(blocks - 1, retries)
  }

  lemma {:induction false} AttemptBudgetProduct(blocks: nat, retries: nat)
    ensures AttemptBudget(blocks, retries) == blocks * (retries + 1)
  {
    if blocks > 0 {
      AttemptBudgetProduct(blocks - 1, retries);
    }
  }

  lemma {:induction false} AttemptBudgetMonotone(a: nat, b: nat, retries: nat)
    requires a < b
    ensures AttemptBudget(a, retries) + retries + 1 <= AttemptBudget(b, retries)
    decreases b - a
  {
    if a + 1 < b {
      AttemptBudgetMonotone(a + 1, b, retries);
    }
  }

  /** One attempt: open the stream at the cursor and pump it. */
  method RunAttempt(
    served: Attempt, start: Cursor, split: nat, before: seq<SubChunk>, ghost first: Cursor)
    returns (cursor: Cursor, subs: seq<SubChunk>, completed: bool)
    requires Continues(first, before, start.resumeFrom, false, split)
    requires start.plan == first.plan && start.end == first.end
    requires start.nextSub == first.nextSub + |before| && !start.emitted
    requires served.Served? ==> WellBehaved(served.items, start.resumeFrom, start.end)
    ensures PumpResult(cursor, subs, completed)
            == if served.OpenFailed? then PumpResult(start, before, false)
               else PumpRun(start, split, [], served.items, before)
    ensures Continues(first, subs, cursor.resumeFrom, completed, split)
    ensures cursor.plan == first.plan && cursor.end == first.end
    ensures cursor.nextSub == first.nextSub + |subs|
    ensures start.resumeFrom <= cursor.resumeFrom
    ensures cursor.emitted <==> start.resumeFrom < cursor.resumeFrom
    ensures Moves(served, start.resumeFrom, cursor.resumeFrom, start.end, completed)
  {
    match served
    case OpenFailed =>
      cursor, subs, completed := start, before, false;
    case Served(items) =>
      PumpContinues(first, start, split, [], items, before);
      PumpExtends(start, split, [], items, before);
      PumpMoves(first, start, split, items, before);
      var gone;
      cursor, subs, completed, gone := PumpBlockStream(items, start, split, before, |items| + 1);
  }

  /** Where an attempt at block `from` leaves the chunk: a failed open at the same block,
      a served stream after everything it delivered, unless that ends the chunk without a
      clean end. */
  ghost predicate Moves(served: Attempt, from: nat, to: nat, end: int, completed: bool) {
    match served
    case OpenFailed => to == from && !completed
    case Served(items) =>
      var got := from + Leading(items);
      && (got <= end ==> to == got)
      && (completed <==> got == end + 1 && EndsCleanly(items))
  }

  lemma PumpMoves(first: Cursor, c: Cursor, split: nat, items: seq<StreamItem>, subs: seq<SubChunk>)
    requires Continues(first, subs, c.resumeFrom, false, split)
    requires c.plan == first.plan && c.end == first.end && c.nextSub == first.nextSub + |subs|
    requires WellBehaved(items, c.resumeFrom, c.end)
    ensures var r := PumpRun(c, split, [], items, subs);
            Moves(Served(items), c.resumeFrom, r.cursor.resumeFrom, c.end, r.completed)
  {
    hide PumpRun, React, TotalSize, BlocksOf, WithinSplit;
    var r := PumpRun(c, split, [], items, subs);
    var all := ReceivedBlocks(items);
    TotalSizeSnoc([], Broken);
    LeadingIsReceived(items);
    PumpContinues(first, c, split, [], items, subs);
    var kept := PumpConserves(c, split, [], items, subs);
    assert [] + all == all;
    WellBehavedEnds(items, c.resumeFrom, c.end);
    assert |BlocksOf(r.subs)| + |kept| == |BlocksOf(subs)| + |all| by {
      assert BlocksOf(r.subs) + kept == BlocksOf(subs) + all;
    }
  }

  lemma WellBehavedEnds(items: seq<StreamItem>, from: int, end: int)
    requires WellBehaved(items, from, end) && from <= end
    ensures EndsAt(ReceivedBlocks(items), end) <==> from + Leading(items) == end + 1
    ensures from + Leading(items) <= end + 1
  {
    LeadingIsReceived(items);
    var n := Leading(items);
    if n > 0 {
      assert ReceivedBlocks(items)[n - 1] == items[n - 1].block;
    }
  }

  /** The resume point before each attempt and after the last: attempt n is served at
      `trail[n - 1]` and leaves the chunk at `trail[n]`. */
  ghost predicate Trail(
    trail: seq<nat>, end: int, serve: (nat, nat) -> Attempt, completed: bool)
  {
    && trail != []
    && forall n | 1 <= n < |trail| ::
         && trail[n - 1] <= trail[n]
         && Moves(serve(n, trail[n - 1]), trail[n - 1], trail[n], end, completed && n == |trail| - 1)
  }

  /** The `count` attempts up to the n-th each handed on nothing. */
  ghost predicate Stuck(trail: seq<nat>, n: nat, count: nat) {
    count <= n < |trail| && trail[n - count] == trail[n]
  }

  /** After every attempt before `upto` the connection came back, and it was not the
      `budget`-th in a row to hand on nothing. */
  ghost predicate Persists(trail: seq<nat>, upto: nat, budget: nat, reconnects: nat -> bool) {
    forall n: nat | 1 <= n < upto :: reconnects(n) && !Stuck(trail, n, budget)
  }

  /** The worker's inner loop over one plan chunk. `serve(n, from)` is the stream the
      n-th attempt gets when it resumes at `from`, `reconnects(n)` whether the
      connection came back after it. With well-behaved streams the loop ends after at
      most B·(retries + 1) attempts on a chunk of B blocks, everything it handed on
      is one exact, dense run of the chunk, and it gives up only when the connection is
      lost or the last retries + 1 attempts in a row handed on nothing. */
  method FetchPlanChunk(
    p: FetchPlan, index: nat, serve: (nat, nat) -> Attempt, reconnects: nat -> bool)
    returns (outcome: ChunkOutcome, subs: seq<SubChunk>, resumeFrom: nat, attempts: nat, ghost trail: seq<nat>)
    requires p.Valid() && index < p.ChunkCount()
    requires forall n: nat, from: nat | serve(n, from).Served? ::
               WellBehaved(serve(n, from).items, from, p.ChunkEnd(index))
    ensures attempts <= (p.ChunkEnd(index) - p.ChunkStart(index) + 1) * (p.retriesPerChunk + 1)
    ensures Continues(Cursor(index, p.ChunkEnd(index), p.ChunkStart(index), 0, false), subs,
                      resumeFrom, outcome.Completed?, p.splitBytes)
    ensures |trail| == attempts + 1 && trail[0] == p.ChunkStart(index) && trail[attempts] == resumeFrom
    ensures Trail(trail, p.ChunkEnd(index), serve, outcome.Completed?)
    ensures outcome.GaveUp? ==> !reconnects(attempts) || Stuck(trail, attempts, p.retriesPerChunk + 1)
    ensures Persists(trail, attempts, p.retriesPerChunk + 1, reconnects)
  {
    ChunksTile(p, index);
    var first := Cursor(index, p.ChunkEnd(index), p.ChunkStart(index), 0, false);
    outcome, subs, resumeFrom, attempts, trail :=
      RetryLoop(first, p.splitBytes, p.retriesPerChunk, serve, reconnects);
    AttemptBudgetProduct(first.end + 1 - first.resumeFrom, p.retriesPerChunk);
  }

  method RetryLoop(
    first: Cursor, split: nat, retries: nat, serve: (nat, nat) -> Attempt, reconnects: nat -> bool)
    returns (outcome: ChunkOutcome, subs: seq<SubChunk>, resumeFrom: nat, attempts: nat, ghost trail: seq<nat>)
    requires first.resumeFrom <= first.end
    requires forall n: nat, from: nat | serve(n, from).Served? ::
               WellBehaved(serve(n, from).items, from, first.end)
    ensures attempts <= AttemptBudget(first.end + 1 - first.resumeFrom, retries)
    ensures Continues(first, subs, resumeFrom, outcome.Completed?, split)
    ensures |trail| == attempts + 1 && trail[0] == first.resumeFrom && trail[attempts] == resumeFrom
    ensures Trail(trail, first.end, serve, outcome.Completed?)
    ensures outcome.GaveUp? ==> !reconnects(attempts) || Stuck(trail, attempts, retries + 1)
    ensures Persists(trail, attempts, retries + 1, reconnects)
  {
    hide Trail, Moves, Persists, Stuck, ZeroProgress, WellBehaved, PumpRun;
    TrailStarts(first.resumeFrom, first.end, serve, retries + 1, reconnects);
    var cursor := first;
    var attempt: nat := 0;
    subs, attempts, trail := [], 0, [first.resumeFrom];
    while true
      invariant attempt <= retries
      invariant cursor.plan == first.plan && cursor.end == first.end
      invariant cursor.nextSub == first.nextSub + |subs|
      invariant Continues(first, subs, cursor.resumeFrom, false, split)
      invariant attempts + AttemptBudget(cursor.end + 1 - cursor.resumeFrom, retries)
                <= AttemptBudget(first.end + 1 - first.resumeFrom, retries) + attempt
      invariant |trail| == attempts + 1 && trail[0] == first.resumeFrom && trail[attempts] == cursor.resumeFrom
      invariant Trail(trail, first.end, serve, false) && ZeroProgress(trail, attempt)
      invariant Persists(trail, attempts + 1, retries + 1, reconnects)
      decreases cursor.end + 1 - cursor.resumeFrom, retries + 1 - attempt
    {
      attempt := attempt + 1;
      attempts := attempts + 1;
      ghost var left := cursor.end + 1 - cursor.resumeFrom;
      ghost var before := trail;
      var done;
      cursor, subs, done := RunAttempt(serve(attempts, cursor.resumeFrom), cursor.(emitted := false),
                                       split, subs, first);
      resumeFrom := cursor.resumeFrom;
      trail := trail + [resumeFrom];
      TrailGrows(before, resumeFrom, first.end, serve, done, attempt - 1);
      PersistsAlong(before, resumeFrom, retries + 1, reconnects);
      if done {
        return Completed, subs, resumeFrom, attempts, trail;
      }
      var next := NextAttempt(attempt, cursor.emitted, retries);
      if next == None || !reconnects(attempts) {
        FruitlessIsStuck(trail, if cursor.emitted then 0 else attempt);
        return GaveUp, subs, resumeFrom, attempts, trail;
      }
      if cursor.emitted {
        AttemptBudgetMonotone(cursor.end + 1 - cursor.resumeFrom, left, retries);
      }
      attempt := next.value - 1;
      NotStuck(trail, first.end, serve, attempt, retries + 1, reconnects);
    }
  }

  /** `count` is how many attempts in a row, up to the last, handed on nothing. */
  ghost predicate ZeroProgress(trail: seq<nat>, count: nat) {
    && trail != [] && Stuck(trail, |trail| - 1, count)
    && (count + 1 < |trail| ==> trail[|trail| - 2 - count] < Last(trail))
  }

  lemma TrailStarts(from: nat, end: int, serve: (nat, nat) -> Attempt, budget: nat, reconnects: nat -> bool)
    ensures Trail([from], end, serve, false) && ZeroProgress([from], 0) && Persists([from], 1, budget, reconnects)
  {
  }

  lemma FruitlessIsStuck(trail: seq<nat>, count: nat)
    requires ZeroProgress(trail, count)
    ensures trail != [] && Stuck(trail, |trail| - 1, count)
  {
  }

  lemma {:induction false} TrailClimbs(
    trail: seq<nat>, end: int, serve: (nat, nat) -> Attempt, completed: bool, i: nat, j: nat)
    requires Trail(trail, end, serve, completed) && i <= j < |trail|
    ensures trail[i] <= trail[j]
    decreases j - i
  {
    hide Moves;
    if i < j {
      TrailClimbs(trail, end, serve, completed, i, j - 1);
      assert trail[j - 1] <= trail[j];
    }
  }

  /** One more attempt on the trail: its run of fruitless attempts grows or starts over. */
  lemma TrailGrows(
    trail: seq<nat>, to: nat, end: int, serve: (nat, nat) -> Attempt, completed: bool, count: nat)
    requires Trail(trail, end, serve, false) && ZeroProgress(trail, count) && Last(trail) <= to
    requires Moves(serve(|trail|, Last(trail)), Last(trail), to, end, completed)
    ensures Trail(trail + [to], end, serve, completed)
    ensures ZeroProgress(trail + [to], if Last(trail) < to then 0 else count + 1)
  {
    hide Moves;
    var longer := trail + [to];
    forall n | 1 <= n < |longer|
      ensures longer[n - 1] <= longer[n]
      ensures Moves(serve(n, longer[n - 1]), longer[n - 1], longer[n], end, completed && n == |longer| - 1)
    {
      if n < |trail| {
        assert trail[n - 1] <= trail[n] && longer[n - 1] == trail[n - 1] && longer[n] == trail[n];
      }
    }
  }

  /** … and what was said of the attempts before it stands. */
  lemma PersistsAlong(trail: seq<nat>, to: nat, budget: nat, reconnects: nat -> bool)
    requires trail != [] && Persists(trail, |trail|, budget, reconnects)
    ensures Persists(trail + [to], |trail|, budget, reconnects)
  {
    forall n: nat | 1 <= n < |trail| ensures reconnects(n) && !Stuck(trail + [to], n, budget) {
      assert reconnects(n) && !Stuck(trail, n, budget);
    }
  }

  /** A run of fewer than `budget` fruitless attempts does not spend the budget. */
  lemma NotStuck(
    trail: seq<nat>, end: int, serve: (nat, nat) -> Attempt, count: nat, budget: nat, reconnects: nat -> bool)
    requires Trail(trail, end, serve, false) && ZeroProgress(trail, count) && count < budget
    requires Persists(trail, |trail| - 1, budget, reconnects) && reconnects(|trail| - 1)
    ensures Persists(trail, |trail|, budget, reconnects)
  {
    hide Trail, Moves;
    var n := |trail| - 1;
    if budget <= n {
      TrailClimbs(trail, end, serve, false, n - budget, n - count - 1);
    }
  }
}
