/**
 * The blessed progress value: a pass-local blend of fetched and scanned
 * blocks, stretched from the pass's starting position, folded into a floor
 * that only a scope re-baseline lowers. The scheduler's bookkeeping of one
 * suggest round is several separate stores; host polls may land between any
 * two of them, and a poll reads before it folds.
 */
module ProgressPermille {
  import opened Prelude

  const U64_MAX: nat := 0xFFFF_FFFF_FFFF_FFFF
  const EPSILON: nat := 50

  function SatSub(a: nat, b: nat): nat {
    if a <= b then 0 else a - b
  }

  function SatAdd(a: nat, b: nat): nat {
    Min(a + b, U64_MAX)
  }

  function SatMul(a: nat, b: nat): (r: nat) {
    if a * b <= U64_MAX then a * b else U64_MAX
  }

  /** The counters a snapshot reads, and the floor it folds into. */
  datatype Meter = Meter(
    floor: nat,
    start: Option<nat>,
    baseFetched: nat,
    baseScanned: nat,
    total: nat,
    fetched: nat,
    scanned: nat)

  /** Blocks of this pass on one side, from its baseline and capped at the total. */
  function Counted(now: nat, base: nat, total: nat): (r: nat)
    ensures r <= total
  {
    Min(SatSub(now, base), total)
  }

  /** fetched and scanned, half each, in permille of the total; 0 without one. */
  function Share(fetched: nat, scanned: nat, total: nat): nat {
    var den := SatMul(total, 2);
    if den == 0 then 0 else SatMul(SatAdd(fetched, scanned), 1000) / den
  }

  function PassPermille(m: Meter): nat {
    Share(Counted(m.fetched, m.baseFetched, m.total), Counted(m.scanned, m.baseScanned, m.total), m.total)
  }

  /** The pass-local permille stretched between the start and 1000. */
  function Stretch(start: Option<nat>, pass: nat): nat {
    match start
    case None => pass
    case Some(s) =>
      var from := Min(s, 1000);
      SatAdd(from, SatMul(SatSub(1000, from), pass) / 1000)
  }

  function RawPermille(m: Meter): nat {
    Stretch(m.start, PassPermille(m))
  }

  function Folded(floor: nat, raw: nat): nat {
    Max(floor, Min(raw, 1000))
  }

  /** The wallet's global position in permille, where there is one. */
  function GlobalSeed(tip: nat, birthday: Option<nat>, remaining: nat): Option<nat> {
    if birthday.None? || tip == 0 || tip < birthday.value then None
    else
      var span := tip - birthday.value + 1;
      Some(SatMul(SatSub(span, remaining), 1000) / span)
  }

  predicate ScopeExpanded(floor: nat, seed: nat) {
    SatAdd(seed, EPSILON) < floor
  }

  lemma DivMonotone(a: nat, b: nat, d: nat)
    requires a <= b && d > 0
    ensures a / d <= b / d
  {
    var k := a / d - b / d;
    assert d * k == d * (a / d) - d * (b / d);
    if k >= 1 {
      ProductAtLeast(d, k);
    }
  }

  lemma ProductAtLeast(d: nat, k: nat)
    requires k >= 1
    ensures d * k >= d
  {
    assert d * k == d * (k - 1) + d;
  }

  lemma DivAtMost(a: nat, d: nat, k: nat)
    requires d > 0 && a <= k * d
    ensures a / d <= k
  {
    DivMonotone(a, k * d, d);
    assert k * d / d == k;
  }

  /** The share never exceeds 1000 and grows with both counts. */
  lemma ShareBounds(f: nat, s: nat, f2: nat, s2: nat, total: nat)
    requires f <= f2 <= total && s <= s2 <= total
    ensures Share(f, s, total) <= Share(f2, s2, total) <= 1000
  {
    hide SatMul;
    var den := SatMul(total, 2);
    SatMulFacts(total, 2);
    SatMulFacts(SatAdd(f, s), 1000);
    SatMulFacts(SatAdd(f2, s2), 1000);
    if den > 0 {
      DivMonotone(SatMul(SatAdd(f, s), 1000), SatMul(SatAdd(f2, s2), 1000), den);
      DivAtMost(SatMul(SatAdd(f2, s2), 1000), den, 1000);
    }
  }

  lemma SatMulFacts(a: nat, k: nat)
    ensures SatMul(a, k) == if a * k <= U64_MAX then a * k else U64_MAX
  {
  }

  /** What the pass adds on top of the start. */
  lemma ClimbBounds(gap: nat, p: nat, q: nat)
    requires gap <= 1000 && p <= q <= 1000
    ensures SatMul(gap, p) / 1000 <= SatMul(gap, q) / 1000 <= gap
    ensures SatMul(gap, 0) / 1000 == 0
  {
    hide SatMul;
    SatMulFacts(gap, p);
    SatMulFacts(gap, q);
    SatMulFacts(gap, 0);
    ProductOrder(gap, p, q);
    ProductOrder(gap, q, 1000);
    DivMonotone(SatMul(gap, p), SatMul(gap, q), 1000);
    DivAtMost(SatMul(gap, q), 1000, gap);
  }

  lemma ProductOrder(a: nat, p: nat, q: nat)
    requires p <= q
    ensures a * p <= a * q
  {
    assert a * q == a * p + a * (q - p);
    assert a * (q - p) >= 0;
  }

  /** Stretching keeps the order, starts at the start and ends at 1000. */
  lemma StretchBounds(start: Option<nat>, p: nat, q: nat)
    requires p <= q <= 1000
    ensures Stretch(start, p) <= Stretch(start, q) <= 1000
    ensures start.Some? ==> Stretch(start, 0) == Min(start.value, 1000) <= Stretch(start, p)
  {
    hide SatMul;
    if start.Some? {
      ClimbBounds(1000 - Min(start.value, 1000), p, q);
    }
  }

  /** For a fixed pass the blend is monotone in the counters, in range, and never below the start. */
  lemma BlendMonotone(m: Meter, fetched: nat, scanned: nat)
    requires m.fetched <= fetched && m.scanned <= scanned
    ensures RawPermille(m) <= RawPermille(m.(fetched := fetched, scanned := scanned)) <= 1000
    ensures m.start.Some? ==> Min(m.start.value, 1000) <= RawPermille(m)
  {
    hide Share, Stretch;
    var f, f2 := Counted(m.fetched, m.baseFetched, m.total), Counted(fetched, m.baseFetched, m.total);
    var s, s2 := Counted(m.scanned, m.baseScanned, m.total), Counted(scanned, m.baseScanned, m.total);
    ShareBounds(f, s, f2, s2, m.total);
    StretchBounds(m.start, Share(f, s, m.total), Share(f2, s2, m.total));
  }

  /** With the baseline at the counters the blend is the start itself. */
  lemma BlendAtBaseline(m: Meter)
    requires m.baseFetched == m.fetched && m.baseScanned == m.scanned
    ensures RawPermille(m) == if m.start.Some? then Min(m.start.value, 1000) else 0
  {
    hide Share, Stretch;
    NoShare(m.total);
    StretchBounds(m.start, 0, 0);
    StretchNothing();
  }

  lemma NoShare(total: nat)
    ensures Share(0, 0, total) == 0
  {
    var den := SatMul(total, 2);
    if den > 0 {
      assert 0 / den == 0;
    }
  }

  lemma StretchNothing()
    ensures Stretch(None, 0) == 0
  {
  }

  /** A quotient is the one number whose multiples of d bracket n. */
  lemma DivBracket(n: nat, d: nat)
    requires d > 0
    ensures d * (n / d) <= n < d * (n / d + 1)
  {
    assert d * (n / d + 1) == d * (n / d) + d;
  }

  /** The blocks of this pass on one side: those since the baseline, at most the total. */
  function SinceBaseline(now: nat, base: nat, total: nat): nat {
    Min(Max(now - base, 0), total)
  }

  /** The pass value is the rounded-down permille of the pass's work done, each block
      counting once when fetched and once when scanned. */
  lemma PassIsWorkDone(m: Meter)
    requires 0 < m.total && 2000 * m.total <= U64_MAX
    ensures var f, s := SinceBaseline(m.fetched, m.baseFetched, m.total),
                        SinceBaseline(m.scanned, m.baseScanned, m.total);
            2 * m.total * PassPermille(m) <= 1000 * (f + s) < 2 * m.total * (PassPermille(m) + 1)
  {
    var f, s := SinceBaseline(m.fetched, m.baseFetched, m.total), SinceBaseline(m.scanned, m.baseScanned, m.total);
    assert SatMul(SatAdd(f, s), 1000) == 1000 * (f + s) && SatMul(m.total, 2) == 2 * m.total;
    DivBracket(1000 * (f + s), 2 * m.total);
  }

  /** A pass that has fetched everything and scanned nothing is half way, and so is the
      reverse; one that has done both is through. */
  lemma HalfWay(m: Meter)
    requires 0 < m.total && 2000 * m.total <= U64_MAX
    requires m.fetched >= m.baseFetched + m.total || m.scanned >= m.baseScanned + m.total
    ensures m.scanned <= m.baseScanned || m.fetched <= m.baseFetched ==> PassPermille(m) == 500
    ensures m.fetched >= m.baseFetched + m.total && m.scanned >= m.baseScanned + m.total ==> PassPermille(m) == 1000
  {
    hide PassPermille;
    PassIsWorkDone(m);
    var t, v := m.total, PassPermille(m);
    if m.scanned <= m.baseScanned || m.fetched <= m.baseFetched {
      DivUnique(2 * t, v, 1000 * t, 500);
    } else if m.fetched >= m.baseFetched + t && m.scanned >= m.baseScanned + t {
      DivUnique(2 * t, v, 2000 * t, 1000);
    }
  }

  /** Only one number brackets n. */
  lemma DivUnique(d: nat, v: nat, n: nat, w: nat)
    requires d > 0 && d * v <= n < d * (v + 1) && d * w <= n < d * (w + 1)
    ensures v == w
  {
    if v < w {
      ProductOrder(d, v + 1, w);
    } else if w < v {
      ProductOrder(d, w + 1, v);
    }
  }

  /** The start's position plus the pass's permille of what the start leaves open. */
  lemma StretchIsInterpolation(m: Meter)
    requires m.start.Some?
    ensures var from := Min(m.start.value, 1000);
            && from <= RawPermille(m)
            && 1000 * (RawPermille(m) - from) <= (1000 - from) * PassPermille(m) < 1000 * (RawPermille(m) - from + 1)
  {
    hide PassPermille, SatMul;
    var from, v := Min(m.start.value, 1000), PassPermille(m);
    ShareBounds(
      Counted(m.fetched, m.baseFetched, m.total), Counted(m.scanned, m.baseScanned, m.total),
      m.total, m.total, m.total);
    PassUnfolds(m);
    SatMulFacts(1000 - from, v);
    ProductOrder(1000 - from, v, 1000);
    DivBracket((1000 - from) * v, 1000);
  }

  lemma PassUnfolds(m: Meter)
    ensures PassPermille(m)
            == Share(Counted(m.fetched, m.baseFetched, m.total), Counted(m.scanned, m.baseScanned, m.total), m.total)
  {
  }

  /** The global position is the rounded-down permille of the blocks from the birthday to
      the tip that are not left to scan, where there is a birthday at or below a known tip. */
  lemma SeedIsPosition(tip: nat, birthday: Option<nat>, remaining: nat)
    ensures GlobalSeed(tip, birthday, remaining).Some? <==> birthday.Some? && 0 < tip && birthday.value <= tip
    ensures GlobalSeed(tip, birthday, remaining).Some? ==>
              var v, span := GlobalSeed(tip, birthday, remaining).value, tip - birthday.value + 1;
              && v <= 1000
              && (1000 * span <= U64_MAX ==>
                    span * v <= 1000 * Max(span - remaining, 0) < span * (v + 1))
  {
    if birthday.Some? && tip > 0 && tip >= birthday.value {
      var span := tip - birthday.value + 1;
      DivAtMost(SatMul(SatSub(span, remaining), 1000), span, 1000);
      DivBracket(SatMul(SatSub(span, remaining), 1000), span);
    }
  }
}
