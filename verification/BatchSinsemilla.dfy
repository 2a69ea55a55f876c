/**
 * The batch-affine combine: all chains of a batch walk their half-steps in
 * lockstep, sharing one inversion per half-step, and a degenerate chain falls
 * back to the scalar combine. Everything here is proved equal to the
 * one-message reference of module Sinsemilla.
 */
module BatchSinsemilla {
  import opened Prelude
  import opened PrimeField
  import opened SinsemillaMessage
  import opened Sinsemilla

  /** The product of a sequence of elements. */
  function Product(p: nat, s: seq<nat>): (r: nat)
    requires 1 < p
    ensures r < p
  {
    if s == [] then 1
    else
      MulBelow(p, Product(p, s[..|s| - 1]), s[|s| - 1]);
      Mul(p, Product(p, s[..|s| - 1]), s[|s| - 1])
  }

  ghost predicate NonZero(p: nat, s: seq<nat>) {
    forall i :: 0 <= i < |s| ==> 0 < s[i] < p
  }

  lemma {:induction false} ProductNonZero(p: nat, s: seq<nat>)
    requires Prime(p) && NonZero(p, s)
    ensures Product(p, s) > 0
  {
    if s != [] {
      ProductNonZero(p, s[..|s| - 1]);
      NoZeroDivisors(p, Product(p, s[..|s| - 1]), s[|s| - 1]);
    }
  }

  lemma ProductStep(p: nat, s: seq<nat>, i: nat)
    requires 1 < p && i < |s|
    ensures Product(p, s[..i + 1]) == Mul(p, Product(p, s[..i]), s[i])
    ensures Product(p, s[..0]) == 1
  {
    assert s[..i + 1][..i] == s[..i];
  }

  /** One step of the way back: x's own inverse, and the inverse of what is left. */
  lemma PeelInverse(p: nat, prefix: nat, x: nat, all: nat)
    requires Prime(p) && prefix < p && 0 < x < p && all < p
    requires Mul(p, Mul(p, prefix, x), all) == 1
    ensures Mul(p, all, prefix) == Inverse(p, x)
    ensures Mul(p, prefix, Mul(p, all, x)) == 1
  {
    hide Mul, Prime, Inverse;
    MulBelow(p, all, prefix);
    MulComm(p, prefix, x);
    MulAssoc(p, x, prefix, all);
    MulComm(p, prefix, all);
    InverseUnique(p, x, Mul(p, all, prefix), Inverse(p, x));
    MulComm(p, all, x);
    MulAssoc(p, prefix, x, all);
  }

  /** Montgomery batch inversion in place: one inversion for the whole array. */
  method BatchInvert(p: nat, xs: array<nat>)
    requires Prime(p) && NonZero(p, xs[..])
    modifies xs
    ensures forall i :: 0 <= i < xs.Length ==> 0 < old(xs[i]) < p && xs[i] == Inverse(p, old(xs[i]))
  {
    hide Mul, Inverse, Product;
    var n := xs.Length;
    if n == 0 {
      return;
    }
    ghost var was := xs[..];
    var prefix := new nat[n];
    var acc: nat := 1;
    ProductStep(p, was, 0);
    for i := 0 to n
      invariant acc == Product(p, was[..i])
      invariant forall k :: 0 <= k < i ==> prefix[k] == Product(p, was[..k])
      invariant xs[..] == was
    {
      prefix[i] := acc;
      ProductStep(p, was, i);
      acc := Mul(p, acc, xs[i]);
    }
    assert was[..n] == was;
    ProductNonZero(p, was);
    var invAll: nat := Inverse(p, acc);
    var i := n;
    while i > 0
      modifies xs
      invariant 0 <= i <= n && invAll < p
      invariant Mul(p, Product(p, was[..i]), invAll) == 1
      invariant forall k :: 0 <= k < i ==> xs[k] == was[k]
      invariant forall k :: i <= k < n ==> xs[k] == Inverse(p, was[k])
    {
      i := i - 1;
      ProductStep(p, was, i);
      PeelInverse(p, prefix[i], was[i], invAll);
      MulBelow(p, invAll, was[i]);
      var invI := Mul(p, invAll, prefix[i]);
      invAll := Mul(p, invAll, xs[i]);
      xs[i] := invI;
    }
  }

  /** The accumulator of msg's chain after a number of half-steps. */
  ghost function Half(d: Domain, msg: seq<nat>, step: nat): (r: Acc)
    requires d.Valid() && IsMessage(msg) && step <= 2 * |msg|
    ensures InField(d.p, r)
  {
    var acc := Chain(d, msg[..step / 2]);
    if step % 2 == 0 then acc else AddIncomplete(d.p, acc, d.s[msg[step / 2]])
  }

  /** What half-step `step` adds to it: S(m) first, then the previous accumulator. */
  ghost function Operand(d: Domain, msg: seq<nat>, step: nat): (r: Acc)
    requires d.Valid() && IsMessage(msg) && step < 2 * |msg|
    ensures InField(d.p, r)
  {
    if step % 2 == 0 then d.s[msg[step / 2]] else Chain(d, msg[..step / 2])
  }

  lemma HalfStep(d: Domain, msg: seq<nat>, step: nat)
    requires d.Valid() && IsMessage(msg) && step < 2 * |msg|
    ensures Half(d, msg, step + 1) == AddIncomplete(d.p, Half(d, msg, step), Operand(d, msg, step))
  {
    hide AddIncomplete;
    var c := step / 2;
    if step % 2 == 1 {
      assert msg[..c + 1][..c] == msg[..c];
    }
  }

  /** One lane between half-steps. */
  ghost predicate LaneAt(d: Domain, msg: seq<nat>, step: nat, dead: bool, x: nat, y: nat, ox: nat, oy: nat)
    requires d.Valid() && IsMessage(msg) && step <= 2 * |msg|
  {
    && dead == Half(d, msg, step).Bottom?
    && (!dead ==> At(x, y) == Half(d, msg, step))
    && (!dead && step % 2 == 1 ==> At(ox, oy) == Operand(d, msg, step))
  }

  /** One lane once its operand and denominator are in place. */
  ghost predicate LaneReady(
    d: Domain, msg: seq<nat>, step: nat, dead: bool, x: nat, y: nat, ox: nat, oy: nat, denom: nat)
    requires d.Valid() && IsMessage(msg) && step < 2 * |msg|
  {
    && dead == Half(d, msg, step + 1).Bottom?
    && 0 < denom < d.p
    && (!dead ==>
          && At(x, y) == Half(d, msg, step)
          && At(ox, oy) == Operand(d, msg, step)
          && x != ox && denom == Sub(d.p, ox, x))
  }

  lemma LaneGathers(d: Domain, msg: seq<nat>, step: nat, dead: bool, x: nat, y: nat, ox: nat, oy: nat)
    requires d.Valid() && IsMessage(msg) && step < 2 * |msg|
    requires LaneAt(d, msg, step, dead, x, y, ox, oy)
    ensures dead ==> LaneReady(d, msg, step, true, x, y, ox, oy, 1)
    ensures !dead ==>
              var o := if step % 2 == 0 then d.s[msg[step / 2]] else At(ox, oy);
              && o == Operand(d, msg, step)
              && (Sub(d.p, o.x, x) == 0 ==> LaneReady(d, msg, step, true, x, y, o.x, o.y, 1))
              && (Sub(d.p, o.x, x) != 0 ==> LaneReady(d, msg, step, false, x, y, o.x, o.y, Sub(d.p, o.x, x)))
  {
    hide Half, Sub, AddIncomplete;
    HalfStep(d, msg, step);
    if !dead {
      var o := if step % 2 == 0 then d.s[msg[step / 2]] else At(ox, oy);
      SubZero(d.p, o.x, x);
      MulBelow(d.p, o.x, x);
    }
  }

  /** A live lane moves by the chord with the inverted denominator. */
  lemma LaneAdvances(d: Domain, msg: seq<nat>, step: nat, dead: bool, x: nat, y: nat, ox: nat, oy: nat, denom: nat)
    requires d.Valid() && IsMessage(msg) && step < 2 * |msg|
    requires LaneReady(d, msg, step, dead, x, y, ox, oy, denom)
    ensures dead ==> LaneAt(d, msg, step + 1, dead, x, y, ox, oy)
    ensures !dead ==>
              var r := ChordAt(d.p, Mul(d.p, Sub(d.p, oy, y), Inverse(d.p, denom)), At(x, y), At(ox, oy));
              && r.At?
              && (step % 2 == 0 ==> LaneAt(d, msg, step + 1, dead, r.x, r.y, x, y))
              && (step % 2 == 1 ==> LaneAt(d, msg, step + 1, dead, r.x, r.y, ox, oy))
  {
    hide Sub, Mul, Inverse, ChordAt, Chain;
    HalfStep(d, msg, step);
    if step % 2 == 0 {
      assert (step + 1) / 2 == step / 2;
    }
  }

  ghost predicate AreMessages(msgs: seq<seq<nat>>) {
    forall i :: 0 <= i < |msgs| ==> |msgs[i]| == CHUNKS && IsMessage(msgs[i])
  }

  /**
   * One lockstep batch, kept as parallel arrays with one slot per message:
   * the accumulator, the operand of the current half-step, its inverted
   * denominator, and whether the chain already hit an undefined addition.
   */
  class Lanes {
    const n: nat
    const x: array<nat>
    const y: array<nat>
    const dead: array<bool>
    const denom: array<nat>
    const otherX: array<nat>
    const otherY: array<nat>

    ghost predicate Shape() {
      && x.Length == y.Length == dead.Length == denom.Length == otherX.Length == otherY.Length == n
      && x != y && x != denom && x != otherX && x != otherY && y != denom && y != otherX && y != otherY
      && denom != otherX && denom != otherY && otherX != otherY
    }

    ghost predicate At(d: Domain, msg: seq<nat>, step: nat, i: nat)
      reads x, y, dead, denom, otherX, otherY
      requires Shape() && i < n && d.Valid() && IsMessage(msg) && step <= 2 * |msg|
    {
      LaneAt(d, msg, step, dead[i], x[i], y[i], otherX[i], otherY[i])
    }

    ghost predicate Ready(d: Domain, msg: seq<nat>, step: nat, i: nat)
      reads x, y, dead, denom, otherX, otherY
      requires Shape() && i < n && d.Valid() && IsMessage(msg) && step < 2 * |msg|
    {
      LaneReady(d, msg, step, dead[i], x[i], y[i], otherX[i], otherY[i], denom[i])
    }

    /** Ready on denominator diff, which has been inverted since. */
    ghost predicate Inverted(d: Domain, msg: seq<nat>, step: nat, i: nat, diff: nat)
      reads x, y, dead, denom, otherX, otherY
      requires Shape() && i < n && d.Valid() && IsMessage(msg) && step < 2 * |msg|
    {
      && LaneReady(d, msg, step, dead[i], x[i], y[i], otherX[i], otherY[i], diff)
      && 0 < diff < d.p && denom[i] == Inverse(d.p, diff)
    }

    constructor (d: Domain, count: nat)
      requires d.Valid()
      ensures Shape() && n == count
      ensures fresh(x) && fresh(y) && fresh(dead) && fresh(denom) && fresh(otherX) && fresh(otherY)
      ensures forall i :: 0 <= i < n ==> !dead[i] && x[i] == d.q.x && y[i] == d.q.y
    {
      n := count;
      x := new nat[count](_ => d.q.x);
      y := new nat[count](_ => d.q.y);
      dead := new bool[count](_ => false);
      denom := new nat[count](_ => 1);
      otherX := new nat[count](_ => 0);
      otherY := new nat[count](_ => 0);
    }

    /** Puts every lane's operand and denominator in place; equal x's kill the lane. */
    method Gather(d: Domain, msgs: seq<seq<nat>>, step: nat)
      requires Shape() && d.Valid() && AreMessages(msgs) && |msgs| == n && step < 2 * CHUNKS
      requires forall i :: 0 <= i < n ==> At(d, msgs[i], step, i)
      modifies dead, denom, otherX, otherY
      ensures forall i :: 0 <= i < n ==> Ready(d, msgs[i], step, i)
    {
      hide LaneAt, LaneReady, Sub, IsMessage;
      for i := 0 to n
        invariant forall k :: 0 <= k < i ==> Ready(d, msgs[k], step, k)
        invariant forall k :: i <= k < n ==> At(d, msgs[k], step, k)
      {
        LaneGathers(d, msgs[i], step, dead[i], x[i], y[i], otherX[i], otherY[i]);
        if dead[i] {
          denom[i] := 1;
        } else {
          if step % 2 == 0 {
            PieceInTable(d, msgs, i, step);
            var s := d.s[msgs[i][step / 2]];
            otherX[i] := s.x;
            otherY[i] := s.y;
          }
          var diff := Sub(d.p, otherX[i], x[i]);
          if diff == 0 {
            dead[i] := true;
            denom[i] := 1;
          } else {
            denom[i] := diff;
          }
        }
      }
    }

    lemma DenominatorsNonZero(d: Domain, msgs: seq<seq<nat>>, step: nat)
      requires Shape() && d.Valid() && AreMessages(msgs) && |msgs| == n && step < 2 * CHUNKS
      requires forall i :: 0 <= i < n ==> Ready(d, msgs[i], step, i)
      ensures Prime(d.p) && NonZero(d.p, denom[..])
    {
      forall i | 0 <= i < n ensures 0 < denom[i] < d.p {
        assert Ready(d, msgs[i], step, i);
      }
    }

    /** Moves every live lane along its chord, stashing the accumulator after a first half. */
    method Advance(d: Domain, msgs: seq<seq<nat>>, step: nat, ghost diffs: seq<nat>)
      requires Shape() && d.Valid() && AreMessages(msgs) && |msgs| == |diffs| == n && step < 2 * CHUNKS
      requires forall i :: 0 <= i < n ==> Inverted(d, msgs[i], step, i, diffs[i])
      modifies x, y, otherX, otherY
      ensures forall i :: 0 <= i < n ==> At(d, msgs[i], step + 1, i)
    {
      hide LaneAt, LaneReady, Sub, Mul, Inverse, IsMessage, AreMessages;
      AllMessages(msgs);
      for i := 0 to n
        invariant forall k :: 0 <= k < i ==> At(d, msgs[k], step + 1, k)
        invariant forall k :: i <= k < n ==> Inverted(d, msgs[k], step, k, diffs[k])
      {
        LaneAdvances(d, msgs[i], step, dead[i], x[i], y[i], otherX[i], otherY[i], diffs[i]);
        if !dead[i] {
          var lambda := Mul(d.p, Sub(d.p, otherY[i], y[i]), denom[i]);
          var x3 := Sub(d.p, Sub(d.p, Mul(d.p, lambda, lambda), x[i]), otherX[i]);
          var y3 := Sub(d.p, Mul(d.p, lambda, Sub(d.p, x[i], x3)), y[i]);
          if step % 2 == 0 {
            otherX[i] := x[i];
            otherY[i] := y[i];
          }
          x[i] := x3;
          y[i] := y3;
        }
      }
    }
  }

  lemma AllMessages(msgs: seq<seq<nat>>)
    requires AreMessages(msgs)
    ensures forall i :: 0 <= i < |msgs| ==> |msgs[i]| == CHUNKS && IsMessage(msgs[i])
  {
  }

  lemma PieceInTable(d: Domain, msgs: seq<seq<nat>>, i: nat, step: nat)
    requires d.Valid() && AreMessages(msgs) && i < |msgs| && step < 2 * CHUNKS
    ensures msgs[i][step / 2] < |d.s| && d.s[msgs[i][step / 2]].At?
  {
  }

  /** The chain's x-coordinate as bytes, or none where it is undefined. */
  ghost function Walked(d: Domain, msg: seq<nat>): (r: Option<seq<nat>>)
    requires d.Valid() && IsMessage(msg)
  {
    var h := Chain(d, msg);
    if h.Bottom? then None else Some(Encode(d, h.x))
  }

  lemma LanesStart(d: Domain, msg: seq<nat>, x: nat, y: nat, ox: nat, oy: nat)
    requires d.Valid() && IsMessage(msg) && x == d.q.x && y == d.q.y
    ensures LaneAt(d, msg, 0, false, x, y, ox, oy)
  {
    assert msg[..0] == [];
  }

  lemma LanesEnd(d: Domain, msg: seq<nat>, dead: bool, x: nat, y: nat, ox: nat, oy: nat)
    requires d.Valid() && |msg| == CHUNKS && IsMessage(msg)
    requires LaneAt(d, msg, 2 * CHUNKS, dead, x, y, ox, oy)
    ensures Walked(d, msg) == if dead then None else Some(Encode(d, x))
  {
    assert msg[..CHUNKS] == msg;
  }

  /** Walks a whole batch: each result is that of its own message's chain alone. */
  method WalkBatch(d: Domain, msgs: seq<seq<nat>>) returns (out: seq<Option<seq<nat>>>)
    requires d.Valid() && AreMessages(msgs)
    ensures |out| == |msgs|
    ensures forall i :: 0 <= i < |msgs| ==> |msgs[i]| == CHUNKS && out[i] == Walked(d, msgs[i])
  {
    hide LaneAt, LaneReady, Inverse, IsMessage, AreMessages, Walked, Domain.Valid, Encode, NonZero;
    AllMessages(msgs);
    var n := |msgs|;
    var lanes := new Lanes(d, n);
    forall i | 0 <= i < n ensures lanes.At(d, msgs[i], 0, i) {
      LanesStart(d, msgs[i], lanes.x[i], lanes.y[i], lanes.otherX[i], lanes.otherY[i]);
    }
    for step := 0 to 2 * CHUNKS
      invariant forall i :: 0 <= i < n ==> lanes.At(d, msgs[i], step, i)
    {
      lanes.Gather(d, msgs, step);
      ghost var diffs := lanes.denom[..];
      lanes.DenominatorsNonZero(d, msgs, step);
      BatchInvert(d.p, lanes.denom);
      lanes.Advance(d, msgs, step, diffs);
    }
    out := [];
    for i := 0 to n
      invariant |out| == i && forall k :: 0 <= k < i ==> out[k] == Walked(d, msgs[k])
      invariant forall k :: 0 <= k < n ==> lanes.At(d, msgs[k], 2 * CHUNKS, k)
    {
      LanesEnd(d, msgs[i], lanes.dead[i], lanes.x[i], lanes.y[i], lanes.otherX[i], lanes.otherY[i]);
      out := out + [if lanes.dead[i] then None else Some(Encode(d, lanes.x[i]))];
    }
  }

  /** The scalar fallback; a node that is no element's encoding hashes to zeros. */
  function ScalarCombine(d: Domain, layer: nat, left: seq<nat>, right: seq<nat>): (r: seq<nat>)
    requires d.Valid() && IsNode(left) && IsNode(right)
  {
    if Canonical(d, left) && Canonical(d, right)
    then Encode(d, Combine(d, layer, FromBytes(left), FromBytes(right)))
    else seq(NODE_BYTES, _ => 0)
  }

  const BATCH: nat := 2048

  /** What the batched combine returns for one pair of nodes. */
  ghost function BatchCombine(d: Domain, layer: nat, left: seq<nat>, right: seq<nat>): (r: seq<nat>)
    requires d.Valid() && IsNode(left) && IsNode(right)
    ensures Canonical(d, left) && Canonical(d, right) ==> r == ScalarCombine(d, layer, left, right)
  {
    match Walked(d, Message(layer, FromBytes(left), FromBytes(right)))
    case Some(bytes) => bytes
    case None => ScalarCombine(d, layer, left, right)
  }

  /** One batch of at most BATCH pairs. */
  method CombineChunk(d: Domain, layers: seq<nat>, lefts: seq<seq<nat>>, rights: seq<seq<nat>>)
    returns (out: seq<seq<nat>>)
    requires d.Valid() && |layers| == |lefts| == |rights|
    requires forall i :: 0 <= i < |layers| ==> IsNode(lefts[i]) && IsNode(rights[i])
    ensures |out| == |layers|
    ensures forall i :: 0 <= i < |layers| ==> out[i] == BatchCombine(d, layers[i], lefts[i], rights[i])
  {
    hide Walked, IsNode, Message, FromBytes, Domain.Valid, ScalarCombine;
    var n := |layers|;
    var msgs: seq<seq<nat>> := [];
    for i := 0 to n
      invariant |msgs| == i && AreMessages(msgs)
      invariant forall k :: 0 <= k < i ==> msgs[k] == Message(layers[k], FromBytes(lefts[k]), FromBytes(rights[k]))
    {
      var msg := ChunkIndices(layers[i], lefts[i], rights[i]);
      msgs := msgs + [msg];
    }
    var walked := WalkBatch(d, msgs);
    out := [];
    for i := 0 to n
      invariant |out| == i
      invariant forall k :: 0 <= k < i ==> out[k] == BatchCombine(d, layers[k], lefts[k], rights[k])
    {
      match walked[i] {
        case Some(bytes) => out := out + [bytes];
        case None => out := out + [ScalarCombine(d, layers[i], lefts[i], rights[i])];
      }
    }
  }

  /** The batched combine: on canonical nodes it is the scalar combine, pair by pair. */
  method OrchardCombineBatch(d: Domain, layers: seq<nat>, lefts: seq<seq<nat>>, rights: seq<seq<nat>>)
    returns (out: seq<seq<nat>>)
    requires d.Valid() && |layers| == |lefts| == |rights|
    requires forall i :: 0 <= i < |layers| ==> IsNode(lefts[i]) && IsNode(rights[i])
    ensures |out| == |layers|
    ensures forall i :: 0 <= i < |layers| ==> out[i] == BatchCombine(d, layers[i], lefts[i], rights[i])
    ensures forall i :: 0 <= i < |layers| && Canonical(d, lefts[i]) && Canonical(d, rights[i]) ==>
              out[i] == Encode(d, Combine(d, layers[i], FromBytes(lefts[i]), FromBytes(rights[i])))
  {
    hide BatchCombine, IsNode, Combine, FromBytes, Encode, Domain.Valid;
    var n := |layers|;
    out := [];
    while |out| < n
      invariant |out| <= n
      invariant forall k :: 0 <= k < |out| ==> out[k] == BatchCombine(d, layers[k], lefts[k], rights[k])
    {
      var lo, hi := |out|, Min(|out| + BATCH, n);
      var part := CombineChunk(d, layers[lo..hi], lefts[lo..hi], rights[lo..hi]);
      out := out + part;
    }
  }
}
