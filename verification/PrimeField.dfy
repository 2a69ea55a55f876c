/**
 * Arithmetic modulo a prime, as the Pallas base field does it: elements are
 * the canonical residues below `p`. The laws below are all the batched
 * hashing needs; the proofs above this module never look inside `Mul`.
 */
module PrimeField {

  ghost predicate Prime(p: nat) {
    1 < p && forall d: nat {:trigger p % d} | 1 < d < p :: p % d != 0
  }

  function Mul(p: nat, a: nat, b: nat): (r: nat)
    requires p > 0
  {
    a * b % p
  }

  function Sub(p: nat, a: nat, b: nat): (r: nat)
    requires p > 0
  {
    (a - b) % p
  }

  /** Quotient and remainder are unique. */
  lemma DivUnique(p: nat, q: int, r: int, n: int)
    requires 0 <= r < p && n == p * q + r
    ensures n / p == q && n % p == r
  {
    var d := n / p - q;
    assert p * d == p * (n / p) - p * q;
    if d >= 1 {
      assert p * d == p * (d - 1) + p;
      NonNegative(p, d - 1);
    } else if d <= -1 {
      assert p * d == p * (d + 1) - p;
      NonNegative(p, -1 - d);
    }
  }

  lemma NonNegative(a: int, b: int)
    requires a >= 0 && b >= 0
    ensures a * b >= 0
  {
  }

  /** Adding a multiple of the modulus does not change the residue. */
  lemma AddMultiple(p: nat, k: int, x: int)
    requires p > 0
    ensures (p * k + x) % p == x % p
  {
    assert p * k + x == p * (k + x / p) + x % p;
    DivUnique(p, k + x / p, x % p, p * k + x);
  }

  /** A factor may be reduced first. */
  lemma MulReduce(p: nat, a: int, b: int)
    requires p > 0
    ensures a % p * b % p == a * b % p
  {
    var k, r := a / p, a % p;
    assert a * b == p * (k * b) + r * b by {
      assert a == p * k + r;
      assert (p * k + r) * b == p * k * b + r * b;
      assert p * k * b == p * (k * b);
    }
    AddMultiple(p, k * b, r * b);
  }

  lemma MulBelow(p: nat, a: nat, b: nat)
    requires p > 0
    ensures Mul(p, a, b) < p && Sub(p, a, b) < p
  {
  }

  lemma MulComm(p: nat, a: nat, b: nat)
    requires p > 0
    ensures Mul(p, a, b) == Mul(p, b, a)
  {
    assert a * b == b * a;
  }

  lemma MulAssoc(p: nat, a: nat, b: nat, c: nat)
    requires p > 0
    ensures Mul(p, Mul(p, a, b), c) == Mul(p, a, Mul(p, b, c))
  {
    MulReduce(p, a * b, c);
    MulReduce(p, b * c, a);
    assert b * c % p * a == a * (b * c % p);
    assert a * b * c == b * c * a;
  }

  lemma MulOne(p: nat, a: nat)
    requires a < p && 1 < p
    ensures Mul(p, a, 1) == a && Mul(p, 1, a) == a
  {
    assert a * 1 == a && 1 * a == a;
    DivUnique(p, 0, a, a);
  }

  /** A difference vanishes only between equal elements. */
  lemma SubZero(p: nat, a: nat, b: nat)
    requires a < p && b < p
    ensures Sub(p, a, b) == 0 <==> a == b
  {
    if a < b {
      DivUnique(p, -1, a - b + p, a - b);
    } else {
      DivUnique(p, 0, a - b, a - b);
    }
  }

  /** Inverses of one element agree. */
  lemma InverseUnique(p: nat, a: nat, b: nat, c: nat)
    requires 1 < p && b < p && c < p
    requires Mul(p, a, b) == 1 && Mul(p, a, c) == 1
    ensures b == c
  {
    hide Mul;
    MulOne(p, b);
    MulAssoc(p, b, a, c);
    MulComm(p, b, a);
    MulOne(p, c);
  }

  /** A negated product of residues is the residue of the negated product. */
  lemma NegMul(p: nat, a: nat, t: nat)
    requires p > 0
    ensures Mul(p, a, Sub(p, 0, t % p)) == (0 - t) * a % p
  {
    var n := t / p;
    assert 0 - t == p * (0 - n) + (0 - t % p);
    AddMultiple(p, 0 - n, 0 - t % p);
    MulReduce(p, 0 - t, a);
    assert (0 - t) % p * a == a * ((0 - t) % p);
  }

  lemma Rearrange(p: nat, q: nat, r: nat, a: nat, s: nat)
    requires p == a * q + r
    ensures (0 - q * s) * a == p * (0 - s) + r * s
  {
    assert p * s == a * q * s + r * s;
    assert a * q * s == a * (q * s);
    assert p * (0 - s) == 0 - p * s;
    assert (0 - q * s) * a == 0 - a * (q * s);
  }

  /** An inverse of the remainder r, times -q, is an inverse of a. */
  lemma InverseStep(p: nat, a: nat, q: nat, r: nat, s: nat)
    requires 0 < p == a * q + r && Mul(p, r, s) == 1
    ensures Mul(p, a, Sub(p, 0, Mul(p, q, s))) == 1
  {
    NegMul(p, a, q * s);
    Rearrange(p, q, r, a, s);
    AddMultiple(p, 0 - s, r * s);
  }

  /** The inverse modulo a prime, by descending on the remainders of p. */
  function Inverse(p: nat, a: nat): (b: nat)
    requires Prime(p) && 0 < a < p
    ensures 0 < b < p && Mul(p, a, b) == 1
    decreases a
  {
    if a == 1 then
      MulOne(p, 1); 1
    else
      assert p % a != 0;
      var s := Inverse(p, p % a);
      InverseStep(p, a, p / a, p % a, s);
      var b := Sub(p, 0, Mul(p, p / a, s));
      assert b != 0 by { assert a * 0 == 0; DivUnique(p, 0, 0, 0); }
      b
  }

  /** A prime modulus has no zero divisors. */
  lemma NoZeroDivisors(p: nat, a: nat, b: nat)
    requires Prime(p) && 0 < a < p && 0 < b < p
    ensures 0 < Mul(p, a, b) < p
  {
    var c := Inverse(p, a);
    MulAssoc(p, c, a, b);
    MulComm(p, c, a);
    MulOne(p, b);
    if Mul(p, a, b) == 0 {
      assert c * 0 == 0;
      DivUnique(p, 0, 0, 0);
    }
  }
}
