/**
 * The Sinsemilla hash of section 5.4.1.9 of the Zcash Protocol Specification,
 * over affine points: incomplete addition, the chain of a message, and the
 * Orchard Merkle combine of section 5.4.1.3 built on it.
 */
module Sinsemilla {
  import opened PrimeField
  import opened SinsemillaMessage

  /** A point of the chain, or bottom once an addition was undefined. */
  datatype Acc = Bottom | At(x: nat, y: nat)

  /** 2^255: field elements fit the 255 message bits of a node. */
  const FIELD_LIMIT: nat := 0x8000000000000000000000000000000000000000000000000000000000000000

  /** The base field, the domain's starting point Q and the table S. */
  datatype Domain = Domain(p: nat, q: Acc, s: seq<Acc>) {
    ghost predicate Valid() {
      && Prime(p) && 2 < p <= FIELD_LIMIT
      && q.At? && InField(p, q)
      && |s| == 1024 && forall m :: 0 <= m < 1024 ==> s[m].At? && InField(p, s[m])
    }
  }

  predicate InField(p: nat, a: Acc) {
    a.At? ==> a.x < p && a.y < p
  }

  function Lambda(p: nat, a: Acc, b: Acc): (r: nat)
    requires Prime(p) && InField(p, a) && InField(p, b)
    requires a.At? && b.At? && a.x != b.x
    ensures r < p
  {
    SubZero(p, b.x, a.x);
    MulBelow(p, Sub(p, b.y, a.y), Inverse(p, Sub(p, b.x, a.x)));
    Mul(p, Sub(p, b.y, a.y), Inverse(p, Sub(p, b.x, a.x)))
  }

  /** The point where the slope-l line through a and b meets the curve again, reflected. */
  function ChordAt(p: nat, l: nat, a: Acc, b: Acc): (r: Acc)
    requires p > 0 && a.At? && b.At?
    ensures r.At? && InField(p, r)
  {
    var x3 := Sub(p, Sub(p, Mul(p, l, l), a.x), b.x);
    var y3 := Sub(p, Mul(p, l, Sub(p, a.x, x3)), a.y);
    MulBelow(p, Sub(p, Mul(p, l, l), a.x), b.x);
    MulBelow(p, Mul(p, l, Sub(p, a.x, x3)), a.y);
    At(x3, y3)
  }

  /** Incomplete addition: bottom on bottom and on points sharing an x. */
  function AddIncomplete(p: nat, a: Acc, b: Acc): (r: Acc)
    requires Prime(p) && InField(p, a) && InField(p, b)
    ensures InField(p, r)
    ensures r.Bottom? <==> a.Bottom? || b.Bottom? || a.x == b.x
  {
    if a.Bottom? || b.Bottom? || a.x == b.x then Bottom else ChordAt(p, Lambda(p, a, b), a, b)
  }

  /** l is the slope of the line through a and b, said without a division. */
  predicate IsSlope(p: nat, l: nat, a: Acc, b: Acc)
    requires p > 0 && a.At? && b.At?
  {
    l < p && Mul(p, l, Sub(p, b.x, a.x)) == Sub(p, b.y, a.y)
  }

  /** The slope that inversion computes is the only one there is. */
  lemma SlopeUnique(p: nat, l: nat, a: Acc, b: Acc)
    requires Prime(p) && InField(p, a) && InField(p, b)
    requires a.At? && b.At? && a.x != b.x
    ensures IsSlope(p, l, a, b) <==> l == Lambda(p, a, b)
  {
    hide Mul, Sub, Inverse, Prime;
    var dx, dy := Sub(p, b.x, a.x), Sub(p, b.y, a.y);
    SubZero(p, b.x, a.x);
    MulBelow(p, b.x, a.x);
    MulBelow(p, b.y, a.y);
    var inv := Inverse(p, dx);
    // (dy * inv) * dx == dy
    MulAssoc(p, dy, inv, dx);
    MulComm(p, inv, dx);
    MulOne(p, dy);
    if l < p && Mul(p, l, dx) == dy {
      MulAssoc(p, l, dx, inv);
      MulOne(p, l);
    }
  }

  predicate IsMessage(msg: seq<nat>) {
    forall c :: 0 <= c < |msg| ==> msg[c] < 1024
  }

  /** The chain after every piece of msg: acc becomes (acc + S(m)) + acc. */
  function Chain(d: Domain, msg: seq<nat>): (r: Acc)
    requires d.Valid() && IsMessage(msg)
    ensures InField(d.p, r)
  {
    if msg == [] then d.q
    else
      var acc := Chain(d, msg[..|msg| - 1]);
      AddIncomplete(d.p, AddIncomplete(d.p, acc, d.s[msg[|msg| - 1]]), acc)
  }

  /** Where the chain of msg first adds two points sharing an x, if anywhere. */
  ghost predicate Degenerate(d: Domain, msg: seq<nat>)
    requires d.Valid() && IsMessage(msg)
  {
    exists c :: 0 <= c < |msg| && DegenerateAt(d, msg, c)
  }

  ghost predicate DegenerateAt(d: Domain, msg: seq<nat>, c: nat)
    requires d.Valid() && IsMessage(msg) && c < |msg|
  {
    var acc := Chain(d, msg[..c]);
    acc.At? && (acc.x == d.s[msg[c]].x || AddIncomplete(d.p, acc, d.s[msg[c]]).x == acc.x)
  }

  /** The chain is bottom exactly when one of its additions is undefined. */
  lemma {:induction false} BottomIffDegenerate(d: Domain, msg: seq<nat>)
    requires d.Valid() && IsMessage(msg)
    ensures Chain(d, msg).Bottom? <==> Degenerate(d, msg)
  {
    if msg != [] {
      var n := |msg| - 1;
      BottomIffDegenerate(d, msg[..n]);
      forall c | 0 <= c < n ensures DegenerateAt(d, msg, c) == DegenerateAt(d, msg[..n], c) {
        assert msg[..n][..c] == msg[..c];
      }
      if Degenerate(d, msg[..n]) {
        var c :| 0 <= c < n && DegenerateAt(d, msg[..n], c);
        assert DegenerateAt(d, msg, c);
      }
      if Chain(d, msg).Bottom? && Chain(d, msg[..n]).At? {
        assert DegenerateAt(d, msg, n);
      }
    }
  }

  /** The Merkle combine on field elements; a bottom hash reads as zero. */
  function Combine(d: Domain, level: nat, left: nat, right: nat): (r: nat)
    requires d.Valid()
    ensures r < d.p
  {
    var h := Chain(d, Message(level, left, right));
    if h.Bottom? then 0 else h.x
  }

  /** The combine is the x of the message's chain, and zero exactly where some addition of the
      chain is undefined or that x is zero. */
  lemma CombineValue(d: Domain, level: nat, left: nat, right: nat)
    requires d.Valid()
    ensures var msg, r := Message(level, left, right), Combine(d, level, left, right);
            if Degenerate(d, msg) then r == 0 else Chain(d, msg).At? && Chain(d, msg).x == r
  {
    hide Degenerate, Chain;
    BottomIffDegenerate(d, Message(level, left, right));
  }

  /** A node's bytes; canonical ones stand for an element below p. */
  predicate Canonical(d: Domain, node: seq<nat>) {
    IsNode(node) && FromBytes(node) < d.p
  }

  function Encode(d: Domain, e: nat): (r: seq<nat>)
    ensures IsNode(r)
  {
    ToBytes(NODE_BYTES, e)
  }

  lemma Pow2Square(a: nat, v: nat)
    requires Pow2(a) == v
    ensures Pow2(2 * a) == v * v
  {
    Pow2Add(a, a);
  }

  lemma LimitFits()
    ensures FIELD_LIMIT < Pow2(8 * NODE_BYTES)
  {
    hide Pow2;
    BytePow2();
    Pow2Square(8, 0x100);
    Pow2Square(16, 0x1_0000);
    Pow2Square(32, 0x1_0000_0000);
    Pow2Square(64, 0x1_0000_0000_0000_0000);
    Pow2Square(128, 0x1_0000_0000_0000_0000_0000_0000_0000_0000);
  }

  /** Every element has one canonical encoding, and reads back from it. */
  lemma EncodingRoundTrip(d: Domain, e: nat, node: seq<nat>)
    requires d.Valid() && e < d.p && IsNode(node)
    ensures Canonical(d, Encode(d, e)) && FromBytes(Encode(d, e)) == e
    ensures Encode(d, FromBytes(node)) == node
  {
    LimitFits();
    FromToBytes(NODE_BYTES, e);
    ToFromBytes(node);
  }
}
