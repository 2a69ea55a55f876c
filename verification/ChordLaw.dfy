/**
 * Incomplete addition said geometrically: over a curve y^2 = x^3 + k, the line
 * through two points with different x meets the curve in exactly one more
 * point, and their sum is that point reflected. Statements are congruences
 * between integers modulo p, so that none of them goes through the formulas
 * the chain computes with.
 */
module ChordLaw {
  import opened PrimeField
  import opened Sinsemilla

  /** a and b are the same residue. */
  predicate Cong(p: nat, a: int, b: int)
    requires p > 0
  {
    (a - b) % p == 0
  }

  predicate OnCurve(p: nat, k: int, a: Acc)
    requires p > 0
  {
    a.At? ==> Cong(p, a.y * a.y, a.x * a.x * a.x + k)
  }

  /** The height at x of the line of slope l through (px, py). */
  function Line(l: int, px: int, py: int, x: int): int {
    py + l * (x - px)
  }

  /** The line of slope l through a also passes through b. */
  predicate Passes(p: nat, l: int, a: Acc, b: Acc)
    requires p > 0 && a.At? && b.At?
  {
    Cong(p, Line(l, a.x, a.y, b.x), b.y)
  }

  /** How far the line through (px, py) is from the curve at x; zero where they meet. */
  function Gap(k: int, l: int, px: int, py: int, x: int): int {
    x * x * x + k - Line(l, px, py, x) * Line(l, px, py, x)
  }

  /** The monic cubic with the three given roots. */
  function Roots(r0: int, r1: int, r2: int, x: int): int {
    (x - r0) * (x - r1) * (x - r2)
  }

  // ── Congruences ──────────────────────────────────────────────────────────

  lemma CongMultiple(p: nat, a: int, b: int, m: int)
    requires p > 0 && a - b == p * m
    ensures Cong(p, a, b)
  {
    DivUnique(p, m, 0, a - b);
  }

  lemma CongTrans(p: nat, a: int, b: int, c: int)
    requires p > 0 && Cong(p, a, b) && Cong(p, b, c)
    ensures Cong(p, a, c)
  {
    var m, n := (a - b) / p, (b - c) / p;
    assert p * (m + n) == p * m + p * n;
    CongMultiple(p, a, c, m + n);
  }

  lemma CongSym(p: nat, a: int, b: int)
    requires p > 0 && Cong(p, a, b)
    ensures Cong(p, b, a)
  {
    var m := (a - b) / p;
    assert p * (0 - m) == 0 - p * m;
    CongMultiple(p, b, a, 0 - m);
  }

  lemma CongSum(p: nat, a: int, b: int, c: int, d: int)
    requires p > 0 && Cong(p, a, b) && Cong(p, c, d)
    ensures Cong(p, a + c, b + d) && Cong(p, a - c, b - d)
  {
    var m, n := (a - b) / p, (c - d) / p;
    assert p * (m + n) == p * m + p * n && p * (m - n) == p * m - p * n;
    CongMultiple(p, a + c, b + d, m + n);
    CongMultiple(p, a - c, b - d, m - n);
  }

  lemma CongScale(p: nat, a: int, b: int, c: int)
    requires p > 0 && Cong(p, a, b)
    ensures Cong(p, c * a, c * b)
  {
    var m := (a - b) / p;
    assert a - b == p * m;
    assert c * a - c * b == c * (a - b);
    assert c * (p * m) == p * (c * m);
    CongMultiple(p, c * a, c * b, c * m);
  }

  lemma CongSquare(p: nat, a: int, b: int)
    requires p > 0 && Cong(p, a, b)
    ensures Cong(p, a * a, b * b)
  {
    CongScale(p, a, b, a);
    CongScale(p, a, b, b);
    assert a * b == b * a;
    CongTrans(p, a * a, a * b, b * b);
  }

  lemma CongSame(p: nat, a: int, b: int)
    requires p > 0 && a == b
    ensures Cong(p, a, b)
  {
    CongMultiple(p, a, b, 0);
  }

  /** Residues are congruent only to themselves. */
  lemma CongResidue(p: nat, a: nat, b: nat)
    requires a < p && b < p
    ensures Cong(p, a, b) <==> a == b
  {
    SubZero(p, a, b);
  }

  lemma CongMod(p: nat, a: int)
    requires p > 0
    ensures Cong(p, a % p, a)
  {
    CongMultiple(p, a % p, a, 0 - a / p);
  }

  lemma MulCong(p: nat, a: nat, b: nat)
    requires p > 0
    ensures Cong(p, Mul(p, a, b), a * b) && Cong(p, Sub(p, a, b), a - b)
  {
    CongMod(p, a * b);
    CongMod(p, a - b);
  }

  /** A product vanishes only with a factor. */
  lemma CongCancel(p: nat, a: int, b: int)
    requires Prime(p) && Cong(p, a * b, 0)
    ensures Cong(p, a, 0) || Cong(p, b, 0)
  {
    var ra, rb := a % p, b % p;
    MulReduce(p, a, b);
    MulReduce(p, b, ra);
    assert ra * b == b * ra && rb * ra == ra * rb;
    if ra != 0 && rb != 0 {
      NoZeroDivisors(p, ra, rb);
    }
  }

  // ── The chord ────────────────────────────────────────────────────────────

  /** What is left of the gap once the root at (px, py) is divided out. */
  function Quotient(l: int, px: int, py: int, x: int): int {
    x * x + x * px + px * px - 2 * l * py - l * l * (x - px)
  }

  lemma SquareOfSum(a: int, b: int)
    ensures (a + b) * (a + b) == a * a + 2 * a * b + b * b
  {
  }

  lemma CubeDifference(x: int, y: int)
    ensures x * x * x - y * y * y == (x - y) * (x * x + x * y + y * y)
  {
  }

  lemma LineSquare(l: int, y: int, d: int)
    ensures (y + l * d) * (y + l * d) == y * y + d * (2 * l * y + l * l * d)
  {
    SquareOfSum(y, l * d);
    assert d * (2 * l * y) == 2 * y * (l * d);
    assert d * (l * l * d) == l * d * (l * d);
  }

  lemma GapDivides(k: int, l: int, px: int, py: int, x: int)
    ensures Gap(k, l, px, py, x) == px * px * px + k - py * py + (x - px) * Quotient(l, px, py, x)
  {
    var d := x - px;
    LineSquare(l, py, d);
    CubeDifference(x, px);
    var s, t := x * x + x * px + px * px, 2 * l * py + l * l * d;
    assert Quotient(l, px, py, x) == s - t;
    assert d * (s - t) == d * s - d * t;
  }

  lemma QuotientDivides(l: int, px: int, py: int, qx: int, x: int)
    ensures Quotient(l, px, py, x) == Quotient(l, px, py, qx) + (x - qx) * (x - (l * l - px - qx))
  {
  }

  /** The line meets the curve at b too, so the quotient vanishes there. */
  lemma SecondRoot(p: nat, k: int, l: int, a: Acc, b: Acc)
    requires Prime(p) && a.At? && b.At? && InField(p, a) && InField(p, b) && a.x != b.x
    requires OnCurve(p, k, a) && OnCurve(p, k, b) && Passes(p, l, a, b)
    ensures Cong(p, Quotient(l, a.x, a.y, b.x), 0)
  {
    hide Quotient, Line, Cong, Prime;
    var line, q := Line(l, a.x, a.y, b.x), Quotient(l, a.x, a.y, b.x);
    var ca, cb := a.x * a.x * a.x + k, b.x * b.x * b.x + k;
    CongSquare(p, line, b.y);
    CongTrans(p, line * line, b.y * b.y, cb);
    CongSame(p, cb, cb);
    CongSum(p, cb, cb, line * line, cb);
    // The gap at b is zero, and so is the curve's equation at a.
    GapDivides(k, l, a.x, a.y, b.x);
    CongSame(p, ca, ca);
    CongSum(p, ca, ca, a.y * a.y, ca);
    CongSum(p, cb - line * line, 0, ca - a.y * a.y, 0);
    assert (b.x - a.x) * q == cb - line * line - (ca - a.y * a.y);
    CongCancel(p, b.x - a.x, q);
    Differ(p, a.x, b.x);
  }

  lemma Differ(p: nat, a: nat, b: nat)
    requires a < p && b < p && a != b
    ensures !Cong(p, b - a, 0)
  {
    SubZero(p, b, a);
  }

  /** Terms that vanish drop out of a nested product, and a factor may be replaced. */
  lemma CongNested(p: nat, e: int, da: int, q0: int, db: int, t: int, u: int)
    requires p > 0 && Cong(p, e, 0) && Cong(p, q0, 0) && Cong(p, t, u)
    ensures Cong(p, e + da * (q0 + db * t), da * db * u)
  {
    hide Cong;
    CongScale(p, t, u, db);
    CongSum(p, q0, 0, db * t, db * u);
    CongScale(p, q0 + db * t, db * u, da);
    CongSum(p, e, 0, da * (q0 + db * t), da * (db * u));
    assert da * (db * u) == da * db * u;
  }

  /** So the gap has the roots a.x and b.x and one more, the sum's. */
  lemma GapFactors(p: nat, k: int, l: int, a: Acc, b: Acc, cx: int, x: int)
    requires Prime(p) && a.At? && b.At? && InField(p, a) && InField(p, b) && a.x != b.x
    requires OnCurve(p, k, a) && OnCurve(p, k, b) && Passes(p, l, a, b)
    requires Cong(p, cx, l * l - a.x - b.x)
    ensures Cong(p, Gap(k, l, a.x, a.y, x), Roots(a.x, b.x, cx, x))
  {
    hide Quotient, Line, Cong, Prime, Gap;
    var cube, third := a.x * a.x * a.x + k, l * l - a.x - b.x;
    SecondRoot(p, k, l, a, b);
    GapDivides(k, l, a.x, a.y, x);
    QuotientDivides(l, a.x, a.y, b.x, x);
    CongSame(p, cube, cube);
    CongSum(p, cube, cube, a.y * a.y, cube);
    CongSym(p, cx, third);
    CongSame(p, x, x);
    CongSum(p, x, x, third, cx);
    CongNested(p, cube - a.y * a.y, x - a.x, Quotient(l, a.x, a.y, b.x), x - b.x, x - third, x - cx);
  }

  lemma LambdaPasses(p: nat, a: Acc, b: Acc)
    requires Prime(p) && InField(p, a) && InField(p, b) && a.At? && b.At? && a.x != b.x
    ensures Passes(p, Lambda(p, a, b), a, b)
  {
    hide Mul, Sub, Cong, Prime, Lambda;
    var l := Lambda(p, a, b);
    var dx := Sub(p, b.x, a.x);
    SlopeUnique(p, l, a, b);
    MulCong(p, b.x, a.x);
    MulCong(p, b.y, a.y);
    MulCong(p, l, dx);
    CongScale(p, dx, b.x - a.x, l);
    CongTrans(p, Mul(p, l, dx), l * dx, l * (b.x - a.x));
    CongSym(p, Mul(p, l, dx), l * (b.x - a.x));
    CongTrans(p, l * (b.x - a.x), Mul(p, l, dx), b.y - a.y);
    CongSame(p, a.y, a.y);
    CongSum(p, a.y, a.y, l * (b.x - a.x), b.y - a.y);
    assert a.y + (b.y - a.y) == b.y;
  }

  /** Two slopes through the same two points are the same residue. */
  lemma SlopesAgree(p: nat, l: int, m: int, a: Acc, b: Acc)
    requires Prime(p) && InField(p, a) && InField(p, b) && a.At? && b.At? && a.x != b.x
    requires Passes(p, l, a, b) && Passes(p, m, a, b)
    ensures Cong(p, l, m)
  {
    hide Cong, Prime;
    CongSame(p, b.y, b.y);
    CongSum(p, Line(l, a.x, a.y, b.x), b.y, Line(m, a.x, a.y, b.x), b.y);
    assert Line(l, a.x, a.y, b.x) - Line(m, a.x, a.y, b.x) == (b.x - a.x) * (l - m);
    CongCancel(p, b.x - a.x, l - m);
    Differ(p, a.x, b.x);
    CongSame(p, m, m);
    CongSum(p, l - m, 0, m, m);
  }

  /** What the chord formulas come to, for any slope of the line. */
  lemma SumCong(p: nat, l: int, a: Acc, b: Acc)
    requires Prime(p) && InField(p, a) && InField(p, b) && a.At? && b.At? && a.x != b.x
    requires Passes(p, l, a, b)
    ensures var c := AddIncomplete(p, a, b);
            && c.At? && Cong(p, c.x, l * l - a.x - b.x)
            && Cong(p, c.y, 0 - Line(l, a.x, a.y, c.x))
  {
    hide Mul, Sub, Cong, Prime, Lambda;
    var m := Lambda(p, a, b);
    var c := AddIncomplete(p, a, b);
    LambdaPasses(p, a, b);
    SlopesAgree(p, m, l, a, b);
    // x: m * m, less a.x, less b.x
    MulCong(p, m, m);
    CongSquare(p, m, l);
    CongTrans(p, Mul(p, m, m), m * m, l * l);
    SubCong(p, Mul(p, m, m), l * l, a.x);
    SubCong(p, Sub(p, Mul(p, m, m), a.x), l * l - a.x, b.x);
    // y: m * (a.x - x), less a.y
    var dx := Sub(p, a.x, c.x);
    MulCong(p, a.x, c.x);
    MulCong(p, m, dx);
    CongScale(p, dx, a.x - c.x, m);
    CongScale(p, m, l, a.x - c.x);
    assert m * (a.x - c.x) == (a.x - c.x) * m;
    CongTrans(p, Mul(p, m, dx), m * dx, m * (a.x - c.x));
    CongTrans(p, Mul(p, m, dx), m * (a.x - c.x), (a.x - c.x) * l);
    SubCong(p, Mul(p, m, dx), (a.x - c.x) * l, a.y);
    assert (a.x - c.x) * l - a.y == 0 - Line(l, a.x, a.y, c.x);
  }

  lemma SubCong(p: nat, a: nat, b: int, c: nat)
    requires p > 0 && Cong(p, a, b)
    ensures Cong(p, Sub(p, a, c), b - c)
  {
    hide Cong, Sub;
    MulCong(p, a, c);
    CongSame(p, c, c);
    CongSum(p, a, b, c, c);
    CongTrans(p, Sub(p, a, c), a - c, b - c);
  }

  /**
   * c is the third point of the line of slope l through a and b, reflected: the
   * gap between the curve and the line is, at every x, the cubic with the roots
   * a.x, b.x and c.x, and c is the mirror image of the line's point at c.x.
   */
  ghost predicate ReflectedThird(p: nat, k: int, l: int, a: Acc, b: Acc, c: Acc)
    requires p > 0 && a.At? && b.At?
  {
    && c.At? && InField(p, c)
    && (forall x: int :: Cong(p, Gap(k, l, a.x, a.y, x), Roots(a.x, b.x, c.x, x)))
    && Cong(p, c.y, 0 - Line(l, a.x, a.y, c.x))
  }

  lemma SumIsReflectedThird(p: nat, k: int, l: int, a: Acc, b: Acc)
    requires Prime(p) && InField(p, a) && InField(p, b) && a.At? && b.At? && a.x != b.x
    requires OnCurve(p, k, a) && OnCurve(p, k, b) && Passes(p, l, a, b)
    ensures ReflectedThird(p, k, l, a, b, AddIncomplete(p, a, b))
  {
    hide Cong, Prime, AddIncomplete, Gap, Roots, Line;
    var c := AddIncomplete(p, a, b);
    SumCong(p, l, a, b);
    forall x: int ensures Cong(p, Gap(k, l, a.x, a.y, x), Roots(a.x, b.x, c.x, x)) {
      GapFactors(p, k, l, a, b, c.x, x);
    }
  }

  /** The third root is unique: away from the other two, the cubic tells it. */
  lemma ThirdUnique(p: nat, k: int, l: int, a: Acc, b: Acc, c: Acc, d: Acc)
    requires Prime(p) && 2 < p && a.At? && b.At? && InField(p, a) && InField(p, b)
    requires ReflectedThird(p, k, l, a, b, c) && ReflectedThird(p, k, l, a, b, d)
    ensures c == d
  {
    hide Cong, Prime, Gap, Roots, Line;
    var x: nat := if a.x != 0 && b.x != 0 then 0 else if a.x != 1 && b.x != 1 then 1 else 2;
    var g, rc, rd := Gap(k, l, a.x, a.y, x), Roots(a.x, b.x, c.x, x), Roots(a.x, b.x, d.x, x);
    CongSym(p, g, rc);
    CongTrans(p, rc, g, rd);
    CongSame(p, rd, rd);
    CongSum(p, rc, rd, rd, rd);
    RootsDiffer(a.x, b.x, c.x, d.x, x);
    CongCancel(p, (x - a.x) * (x - b.x), d.x - c.x);
    if Cong(p, (x - a.x) * (x - b.x), 0) {
      CongCancel(p, x - a.x, x - b.x);
      Differ(p, a.x, x);
      Differ(p, b.x, x);
    } else if d.x != c.x {
      Differ(p, c.x, d.x);
    }
    var y := 0 - Line(l, a.x, a.y, c.x);
    CongSym(p, d.y, y);
    CongTrans(p, c.y, y, d.y);
    CongResidue(p, c.y, d.y);
  }

  lemma RootsDiffer(r0: int, r1: int, c: int, d: int, x: int)
    ensures Roots(r0, r1, c, x) - Roots(r0, r1, d, x) == (x - r0) * (x - r1) * (d - c)
  {
    var m := (x - r0) * (x - r1);
    assert m * (x - c) - m * (x - d) == m * (d - c);
  }

  /**
   * Incomplete addition is the chord rule: on a curve, the sum of two points
   * with different x is the one reflected third point of the line through them,
   * whichever integer stands for its slope, and is on the curve again.
   */
  lemma AddIsChord(p: nat, k: int, l: int, a: Acc, b: Acc, c: Acc)
    requires Prime(p) && 2 < p && InField(p, a) && InField(p, b) && a.At? && b.At? && a.x != b.x
    requires OnCurve(p, k, a) && OnCurve(p, k, b) && Passes(p, l, a, b)
    ensures c == AddIncomplete(p, a, b) <==> ReflectedThird(p, k, l, a, b, c)
    ensures c == AddIncomplete(p, a, b) ==> OnCurve(p, k, c)
  {
    hide Cong, Prime, AddIncomplete, ReflectedThird;
    var sum := AddIncomplete(p, a, b);
    SumIsReflectedThird(p, k, l, a, b);
    if ReflectedThird(p, k, l, a, b, c) {
      ThirdUnique(p, k, l, a, b, c, sum);
    }
    ThirdOnCurve(p, k, l, a, b, sum);
  }

  lemma ThirdOnCurve(p: nat, k: int, l: int, a: Acc, b: Acc, c: Acc)
    requires p > 0 && a.At? && b.At? && ReflectedThird(p, k, l, a, b, c)
    ensures OnCurve(p, k, c)
  {
    hide Cong, Line;
    var line, cube := Line(l, a.x, a.y, c.x), c.x * c.x * c.x + k;
    assert Cong(p, Gap(k, l, a.x, a.y, c.x), Roots(a.x, b.x, c.x, c.x));
    assert Roots(a.x, b.x, c.x, c.x) == 0;
    CongSame(p, line * line, line * line);
    CongSum(p, cube - line * line, 0, line * line, line * line);
    CongSym(p, cube, line * line);
    CongSquare(p, c.y, 0 - line);
    assert (0 - line) * (0 - line) == line * line;
    CongTrans(p, c.y * c.y, line * line, cube);
  }

  /** Addition stays on the curve. */
  lemma SumOnCurve(p: nat, k: int, a: Acc, b: Acc)
    requires Prime(p) && 2 < p && InField(p, a) && InField(p, b)
    requires OnCurve(p, k, a) && OnCurve(p, k, b)
    ensures OnCurve(p, k, AddIncomplete(p, a, b))
  {
    hide Cong, Prime;
    if a.At? && b.At? && a.x != b.x {
      LambdaPasses(p, a, b);
      AddIsChord(p, k, Lambda(p, a, b), a, b, AddIncomplete(p, a, b));
    }
  }

  /** So a domain whose points are on the curve has every chain on it. */
  lemma {:induction false} ChainOnCurve(d: Domain, k: int, msg: seq<nat>)
    requires d.Valid() && IsMessage(msg)
    requires OnCurve(d.p, k, d.q) && forall m :: 0 <= m < |d.s| ==> OnCurve(d.p, k, d.s[m])
    ensures OnCurve(d.p, k, Chain(d, msg))
    decreases |msg|
  {
    hide OnCurve, AddIncomplete, Prime;
    if msg != [] {
      var n := |msg| - 1;
      ChainOnCurve(d, k, msg[..n]);
      var acc, s := Chain(d, msg[..n]), d.s[msg[n]];
      SumOnCurve(d.p, k, acc, s);
      SumOnCurve(d.p, k, AddIncomplete(d.p, acc, s), acc);
    }
  }
}
