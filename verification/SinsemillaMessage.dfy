/**
 * The message a Merkle combine hashes, per section 5.4.1.3 of the Zcash
 * Protocol Specification: ten level bits, then 255 bits of each child, cut
 * into ten-bit little-endian pieces. The reference works on the integers the
 * nodes stand for; `ChunkIndices` works on their 32 bytes.
 */
module SinsemillaMessage {
  const K: nat := 10
  const CHUNKS: nat := 52
  const NODE_BYTES: nat := 32

  function Pow2(n: nat): (r: nat)
    ensures r > 0
  {
    if n == 0 then 1 else 2 * Pow2(n - 1)
  }

  lemma {:induction false} Pow2Add(a: nat, b: nat)
    ensures Pow2(a + b) == Pow2(a) * Pow2(b)
  {
    if a == 0 {
      assert 1 * Pow2(b) == Pow2(b);
    } else {
      Pow2Add(a - 1, b);
      assert 2 * (Pow2(a - 1) * Pow2(b)) == 2 * Pow2(a - 1) * Pow2(b);
    }
  }

  lemma BytePow2()
    ensures Pow2(8) == 256
  {
  }

  /** Logical right shift. */
  function Shr(n: nat, k: nat): nat {
    if k == 0 then n else Shr(n / 2, k - 1)
  }

  /** Bit i of n. */
  predicate Bit(n: nat, i: nat) {
    Shr(n, i) % 2 == 1
  }

  /** The low len bits of n, least significant first. */
  function LowBits(len: nat, n: nat): (r: seq<bool>)
    ensures |r| == len && forall i :: 0 <= i < len ==> r[i] == Bit(n, i)
  {
    seq(len, i requires 0 <= i < len => Bit(n, i))
  }

  /** The integer that a little-endian bit sequence stands for. */
  function FromBits(bits: seq<bool>): nat {
    if bits == [] then 0 else (if bits[0] then 1 else 0) + 2 * FromBits(bits[1..])
  }

  lemma {:induction false} FromBitsSnoc(bits: seq<bool>, b: bool)
    ensures FromBits(bits + [b]) == FromBits(bits) + (if b then Pow2(|bits|) else 0)
  {
    if bits == [] {
      assert [b][1..] == [];
      assert bits + [b] == [b];
    } else {
      assert (bits + [b])[1..] == bits[1..] + [b];
      FromBitsSnoc(bits[1..], b);
    }
  }

  lemma {:induction false} FromBitsBelow(bits: seq<bool>)
    ensures FromBits(bits) < Pow2(|bits|)
  {
    if bits != [] {
      FromBitsBelow(bits[1..]);
    }
  }

  /** Bits and integers below 2^len are the same thing. */
  lemma {:induction false} BitsRoundTrip(len: nat, n: nat)
    requires n < Pow2(len)
    ensures FromBits(LowBits(len, n)) == n
  {
    if len > 0 {
      assert LowBits(len, n)[1..] == LowBits(len - 1, n / 2);
      BitsRoundTrip(len - 1, n / 2);
    }
  }

  predicate IsBytes(b: seq<nat>) {
    forall i :: 0 <= i < |b| ==> b[i] < 256
  }

  predicate IsNode(b: seq<nat>) {
    |b| == NODE_BYTES && IsBytes(b)
  }

  /** The integer a little-endian byte string stands for. */
  function FromBytes(b: seq<nat>): nat {
    if b == [] then 0 else b[0] + 256 * FromBytes(b[1..])
  }

  /** The low len bytes of n, least significant first. */
  function ToBytes(len: nat, n: nat): (r: seq<nat>)
    ensures |r| == len && IsBytes(r)
  {
    if len == 0 then [] else [n % 256] + ToBytes(len - 1, n / 256)
  }

  lemma LowByte(b: nat, rest: nat)
    requires b < 256
    ensures (b + 256 * rest) % 256 == b && (b + 256 * rest) / 256 == rest
  {
  }

  lemma {:induction false} ToFromBytes(b: seq<nat>)
    requires IsBytes(b)
    ensures ToBytes(|b|, FromBytes(b)) == b
  {
    if b != [] {
      ToFromBytes(b[1..]);
      LowByte(b[0], FromBytes(b[1..]));
      assert b == [b[0]] + b[1..];
    }
  }

  lemma {:induction false} FromToBytes(len: nat, n: nat)
    requires n < Pow2(8 * len)
    ensures FromBytes(ToBytes(len, n)) == n
  {
    if len > 0 {
      Pow2Add(8, 8 * (len - 1));
      assert Pow2(8) == 256;
      FromToBytes(len - 1, n / 256);
      assert ToBytes(len, n)[1..] == ToBytes(len - 1, n / 256);
    }
  }

  /** The bits of lo + 2^k * hi are those of lo, then those of hi. */
  lemma {:induction false} BitOfSum(lo: nat, k: nat, hi: nat, i: nat)
    requires lo < Pow2(k)
    ensures Bit(lo + Pow2(k) * hi, i) == if i < k then Bit(lo, i) else Bit(hi, i - k)
  {
    if k > 0 {
      var m := Pow2(k - 1) * hi;
      assert Pow2(k) * hi == 2 * m;
      assert (lo + 2 * m) / 2 == lo / 2 + m;
      if i > 0 {
        BitOfSum(lo / 2, k - 1, hi, i - 1);
      }
    }
  }

  /** Bit i of a byte string's integer is bit i % 8 of byte i / 8. */
  lemma {:induction false} BitOfBytes(b: seq<nat>, i: nat)
    requires IsBytes(b) && i < 8 * |b|
    ensures Bit(FromBytes(b), i) == Bit(b[i / 8], i % 8)
  {
    hide Bit;
    assert Pow2(8) == 256;
    BitOfSum(b[0], 8, FromBytes(b[1..]), i);
    if i >= 8 {
      BitOfBytes(b[1..], i - 8);
      assert b[1..][(i - 8) / 8] == b[i / 8];
    }
  }

  /** Ten level bits, then 255 bits of each child. */
  function MessageBits(level: nat, left: nat, right: nat): (r: seq<bool>)
    ensures |r| == CHUNKS * K
  {
    LowBits(10, level) + LowBits(255, left) + LowBits(255, right)
  }

  /** The ten-bit pieces of the message, each read little-endian. */
  function Pieces(bits: seq<bool>): (r: seq<nat>)
    requires |bits| == CHUNKS * K
    ensures |r| == CHUNKS && forall c :: 0 <= c < CHUNKS ==> r[c] == Piece(bits, c)
  {
    seq(CHUNKS, c requires 0 <= c < CHUNKS => Piece(bits, c))
  }

  function Piece(bits: seq<bool>, c: nat): (r: nat)
    requires |bits| == CHUNKS * K && c < CHUNKS
    ensures r < 1024
  {
    FromBitsBelow(bits[K * c..K * c + K]);
    assert Pow2(10) == 1024;
    FromBits(bits[K * c..K * c + K])
  }

  function Message(level: nat, left: nat, right: nat): (r: seq<nat>)
    ensures |r| == CHUNKS && forall c :: 0 <= c < CHUNKS ==> r[c] < 1024
  {
    Pieces(MessageBits(level, left, right))
  }

  lemma FromBitsStep(bits: seq<bool>)
    ensures bits == [] ==> FromBits(bits) == 0 && Pow2(|bits|) == 1
    ensures bits != [] ==> FromBits(bits) == (if bits[0] then 1 else 0) + 2 * FromBits(bits[1..])
    ensures bits != [] ==> Pow2(|bits|) == 2 * Pow2(|bits[1..]|)
  {
  }

  lemma Doubled(p: nat, q: nat, r: nat)
    requires r == 2 * p
    ensures r * q == 2 * (p * q)
  {
  }

  lemma {:induction false} FromBitsJoin(a: seq<bool>, b: seq<bool>)
    ensures FromBits(a + b) == FromBits(a) + Pow2(|a|) * FromBits(b)
  {
    hide FromBits, Pow2;
    FromBitsStep(a);
    FromBitsStep(a + b);
    if a == [] {
      assert a + b == b;
    } else {
      assert (a + b)[1..] == a[1..] + b;
      FromBitsJoin(a[1..], b);
      Doubled(Pow2(|a[1..]|), FromBits(b), Pow2(|a|));
    }
  }

  /** The integer that pieces of ten bits stand for, least significant piece first. */
  function FromPieces(pieces: seq<nat>): nat {
    if pieces == [] then 0 else pieces[0] + 1024 * FromPieces(pieces[1..])
  }

  /** Cutting bits into pieces changes nothing of the integer they stand for. */
  lemma {:induction false} PiecesKeep(bits: seq<bool>, c: nat)
    requires |bits| == CHUNKS * K && c <= CHUNKS
    ensures FromPieces(Pieces(bits)[c..]) == FromBits(bits[K * c..])
    decreases CHUNKS - c
  {
    hide Pow2;
    if c < CHUNKS {
      var pieces, head, rest := Pieces(bits), bits[K * c..K * c + K], bits[K * (c + 1)..];
      PiecesKeep(bits, c + 1);
      assert pieces[c..][1..] == pieces[c + 1..] && pieces[c..][0] == Piece(bits, c);
      assert bits[K * c..] == head + rest;
      FromBitsJoin(head, rest);
      PiecePow2();
    }
  }

  lemma PiecePow2()
    ensures Pow2(K) == 1024
  {
  }

  /** The whole message is one little-endian integer: the level in its low ten bits, then the
      left child in the next `n` = 255, then the right child. */
  lemma MessageIsInteger(level: nat, left: nat, right: nat, n: nat)
    requires n == 255 && level < 1024 && left < Pow2(n) && right < Pow2(n)
    ensures FromPieces(Message(level, left, right)) == level + 1024 * (left + Pow2(n) * right)
  {
    hide Pow2, FromBits, Pieces, LowBits;
    var bits := MessageBits(level, left, right);
    var lb, rb := LowBits(n, left), LowBits(n, right);
    PiecesKeep(bits, 0);
    assert Pieces(bits)[0..] == Pieces(bits) && bits[K * 0..] == bits;
    assert bits == LowBits(K, level) + (lb + rb);
    FromBitsJoin(LowBits(K, level), lb + rb);
    FromBitsJoin(lb, rb);
    PiecePow2();
    BitsRoundTrip(K, level);
    BitsRoundTrip(n, left);
    BitsRoundTrip(n, right);
  }

  /** Spreads the message over 520 bits, byte by byte. */
  method SpreadBits(layer: nat, left: seq<nat>, right: seq<nat>) returns (bits: seq<bool>)
    requires IsNode(left) && IsNode(right)
    ensures bits == MessageBits(layer, FromBytes(left), FromBytes(right))
  {
    var a := new bool[520](_ => false);
    for i := 0 to 10
      invariant forall k :: 0 <= k < i ==> a[k] == Bit(layer, k)
    {
      a[i] := Shr(layer, i) % 2 == 1;
    }
    for i := 0 to 255
      invariant forall k :: 0 <= k < 10 ==> a[k] == Bit(layer, k)
      invariant forall k :: 0 <= k < i ==> a[10 + k] == Bit(FromBytes(left), k)
    {
      BitOfBytes(left, i);
      a[10 + i] := Shr(left[i / 8], i % 8) % 2 == 1;
    }
    for i := 0 to 255
      invariant forall k :: 0 <= k < 10 ==> a[k] == Bit(layer, k)
      invariant forall k :: 0 <= k < 255 ==> a[10 + k] == Bit(FromBytes(left), k)
      invariant forall k :: 0 <= k < i ==> a[265 + k] == Bit(FromBytes(right), k)
    {
      BitOfBytes(right, i);
      a[265 + i] := Shr(right[i / 8], i % 8) % 2 == 1;
    }
    bits := a[..];
    assert bits[..10] == LowBits(10, layer);
    assert bits[10..265] == LowBits(255, FromBytes(left));
    assert bits[265..] == LowBits(255, FromBytes(right));
    assert bits == bits[..10] + bits[10..265] + bits[265..];
  }

  /** Reads ten bits, least significant first. */
  method ReadPiece(bits: seq<bool>, c: nat) returns (v: nat)
    requires |bits| == CHUNKS * K && c < CHUNKS
    ensures v == Piece(bits, c)
  {
    v := 0;
    ghost var piece := bits[K * c..K * c + K];
    for k := 0 to K
      invariant v == FromBits(piece[..k])
    {
      FromBitsSnoc(piece[..k], piece[k]);
      assert piece[..k + 1] == piece[..k] + [piece[k]];
      if bits[c * K + k] {
        // Bit k of v is still clear, so the bitwise or is a sum.
        v := v + Pow2(k);
      }
    }
    assert piece[..K] == piece;
  }

  /** The 52 chunk indices of one combine's message, from the nodes' bytes. */
  method ChunkIndices(layer: nat, left: seq<nat>, right: seq<nat>) returns (out: seq<nat>)
    requires IsNode(left) && IsNode(right)
    ensures out == Message(layer, FromBytes(left), FromBytes(right))
  {
    var bits := SpreadBits(layer, left, right);
    out := [];
    for c := 0 to CHUNKS
      invariant |out| == c && forall d :: 0 <= d < c ==> out[d] == Piece(bits, d)
    {
      var v := ReadPiece(bits, c);
      out := out + [v];
    }
  }
}
