/** Which scanned blocks to scan again for a run of positions, from tree sizes that are known
    only at some heights: two walks over the scanned stretches, from either end. */
module RescanWalks {
  import opened Prelude

  /** The heights `start, …, end - 1`. */
  datatype Heights = Heights(start: nat, end: nat) {
    predicate Has(h: nat) {
      start <= h < end
    }
  }

  /** The positions `first, …, last` of a buffered run. */
  datatype PositionRun = PositionRun(first: nat, last: nat)

  /** The tree size at the end of each block, as the chain has it. */
  type Sizes = nat -> nat

  ghost predicate Monotone(size: Sizes) {
    forall a: nat, b: nat | a <= b :: size(a) <= size(b)
  }

  /** The wallet knows the size of some blocks, and what it knows is right. */
  ghost predicate Agrees(known: nat -> Option<nat>, size: Sizes) {
    forall h: nat :: known(h).Some? ==> known(h).value == size(h)
  }

  ghost predicate Stretches(ss: seq<Heights>) {
    && (forall i | 0 <= i < |ss| :: ss[i].start < ss[i].end)
    && (forall i, j | 0 <= i < j < |ss| :: ss[i].end <= ss[j].start)
  }

  // ── The first block past a position ──────────────────────────────────────

  ghost predicate IsFirstPast(size: Sizes, position: nat, s: Heights, h: nat) {
    s.Has(h) && size(h) > position && forall g | s.start <= g < h :: size(g) <= position
  }

  /** The same, found by going up from `at`. */
  ghost function FirstPast(size: Sizes, position: nat, s: Heights, at: nat): (h: nat)
    requires s.Has(at) && size(s.end - 1) > position
    requires forall g | s.start <= g < at :: size(g) <= position
    ensures IsFirstPast(size, position, s, h)
    decreases s.end - at
  {
    if size(at) > position then at else FirstPast(size, position, s, at + 1)
  }

  /** The blocks a binary search for the position reads between `lo` and `hi` all have a
      known size. */
  ghost predicate PathKnown(known: nat -> Option<nat>, size: Sizes, position: nat, lo: nat, hi: nat)
    decreases hi - lo
  {
    lo < hi ==>
      var mid := lo + (hi - lo) / 2;
      && known(mid).Some?
      && (if size(mid) > position then PathKnown(known, size, position, lo, mid)
          else PathKnown(known, size, position, mid + 1, hi))
  }

  lemma PathStep(known: nat -> Option<nat>, size: Sizes, position: nat, lo: nat, hi: nat)
    requires lo < hi
    ensures var mid := lo + (hi - lo) / 2;
            PathKnown(known, size, position, lo, hi) <==>
              && known(mid).Some?
              && (if size(mid) > position then PathKnown(known, size, position, lo, mid)
                  else PathKnown(known, size, position, mid + 1, hi))
  {
  }

  lemma PathDone(known: nat -> Option<nat>, size: Sizes, position: nat, at: nat)
    ensures PathKnown(known, size, position, at, at)
  {
  }

  lemma NotPast(size: Sizes, position: nat, at: nat)
    requires Monotone(size) && size(at) <= position
    ensures forall g: nat | g <= at :: size(g) <= position
  {
  }

  /** The stretch's last block is known to be past the position, and so is the search path
      from there. */
  ghost predicate Decided(known: nat -> Option<nat>, size: Sizes, position: nat, s: Heights)
    requires s.start < s.end
  {
    && known(s.end - 1).Some? && size(s.end - 1) > position
    && PathKnown(known, size, position, s.start, s.end - 1)
  }

  /** The binary search: it finds the block exactly when what it reads is known. */
  method FirstBlockPast(known: nat -> Option<nat>, position: nat, s: Heights, ghost size: Sizes)
    returns (h: Option<nat>)
    requires s.start < s.end && Monotone(size) && Agrees(known, size)
    ensures h.Some? ==> IsFirstPast(size, position, s, h.value)
    ensures h.Some? <==> Decided(known, size, position, s)
  {
    hide PathKnown, Monotone;
    var lo, hi := s.start, s.end - 1;
    if known(hi).None? || known(hi).value <= position {
      return None;
    }
    while lo < hi
      invariant s.start <= lo <= hi < s.end
      invariant size(hi) > position
      invariant forall g | s.start <= g < lo :: size(g) <= position
      invariant PathKnown(known, size, position, s.start, s.end - 1) <==> PathKnown(known, size, position, lo, hi)
    {
      var mid := lo + (hi - lo) / 2;
      PathStep(known, size, position, lo, hi);
      match known(mid)
      case None => return None;
      case Some(v) =>
        if v > position {
          hi := mid;
        } else {
          NotPast(size, position, mid);
          lo := mid + 1;
        }
    }
    PathDone(known, size, position, lo);
    h := Some(lo);
  }

  // ── The reference: oldest first, every size known ────────────────────────

  ghost function Rescans(size: Sizes, run: PositionRun, ss: seq<Heights>): seq<Heights>
    requires Stretches(ss)
    decreases |ss|
  {
    if ss == [] then []
    else
      var s, endSize := ss[0], size(ss[0].end - 1);
      assert Stretches(ss[1..]);
      if endSize <= run.first then Rescans(size, run, ss[1..])
      else
        var from := FirstPast(size, run.first, s, s.start);
        if endSize > run.last then [Heights(from, FirstPast(size, run.last, s, s.start) + 1)]
        else [Heights(from, s.end)] + Rescans(size, run, ss[1..])
  }

  ghost predicate InSome(rs: seq<Heights>, h: nat) {
    exists i | 0 <= i < |rs| :: rs[i].Has(h)
  }

  /** The scanned blocks a run reaches: past its first position, with no scanned block below
      already past its last. */
  ghost predicate Reached(size: Sizes, run: PositionRun, ss: seq<Heights>, h: nat) {
    InSome(ss, h) && size(h) > run.first && forall g | 0 <= g < h && InSome(ss, g) :: size(g) <= run.last
  }

  lemma InSomeCons(r: Heights, rs: seq<Heights>, h: nat)
    ensures InSome([r] + rs, h) <==> r.Has(h) || InSome(rs, h)
  {
    if i :| 0 <= i < |rs| && rs[i].Has(h) {
      assert ([r] + rs)[i + 1] == rs[i];
    }
    if r.Has(h) {
      assert ([r] + rs)[0] == r;
    }
  }

  lemma InSomeOne(r: Heights, h: nat)
    ensures InSome([r], h) <==> r.Has(h)
  {
    assert [r][0] == r;
  }

  lemma InSomeSplit(ss: seq<Heights>, h: nat)
    requires ss != []
    ensures InSome(ss, h) <==> ss[0].Has(h) || InSome(ss[1..], h)
  {
    assert ss == [ss[0]] + ss[1..];
    InSomeCons(ss[0], ss[1..], h);
  }

  /** Heights of later stretches lie above the first one. */
  lemma LaterIsHigher(ss: seq<Heights>, h: nat)
    requires Stretches(ss) && ss != [] && InSome(ss[1..], h)
    ensures h >= ss[0].end
  {
    var i :| 0 <= i < |ss[1..]| && ss[1..][i].Has(h);
    assert ss[1..][i] == ss[i + 1];
  }

  /** What the reference returns, height by height. */
  lemma {:induction false} RescansAreReached(size: Sizes, run: PositionRun, ss: seq<Heights>, h: nat)
    requires Stretches(ss) && Monotone(size) && run.first <= run.last
    ensures InSome(Rescans(size, run, ss), h) <==> Reached(size, run, ss, h)
    decreases |ss|
  {
    if ss != [] {
      var s, rest := ss[0], ss[1..];
      assert Stretches(rest);
      InSomeSplit(ss, h);
      RescansAreReached(size, run, rest, h);
      var endSize := size(s.end - 1);
      if endSize <= run.first {
        SkipFirst(size, run, ss, h);
      } else if endSize > run.last {
        StopAtFirst(size, run, ss, h);
        InSomeOne(Rescans(size, run, ss)[0], h);
      } else {
        TakeFirst(size, run, ss, h);
      }
    }
  }

  lemma BelowEnd(size: Sizes, s: Heights, g: nat)
    requires Monotone(size) && s.start <= g < s.end
    ensures size(g) <= size(s.end - 1)
  {
  }

  lemma SkipFirst(size: Sizes, run: PositionRun, ss: seq<Heights>, h: nat)
    requires Stretches(ss) && Monotone(size) && run.first <= run.last && ss != []
    requires size(ss[0].end - 1) <= run.first
    ensures Reached(size, run, ss, h) <==> Reached(size, run, ss[1..], h)
  {
    InSomeSplit(ss, h);
    forall g | 0 <= g < h && InSome(ss, g) ensures InSome(ss[1..], g) || size(g) <= run.last {
      InSomeSplit(ss, g);
      if ss[0].Has(g) {
        BelowEnd(size, ss[0], g);
      }
    }
    forall g | 0 <= g < h && InSome(ss[1..], g) ensures InSome(ss, g) {
      InSomeSplit(ss, g);
    }
    if ss[0].Has(h) {
      BelowEnd(size, ss[0], h);
    }
  }

  lemma StopAtFirst(size: Sizes, run: PositionRun, ss: seq<Heights>, h: nat)
    requires Stretches(ss) && Monotone(size) && run.first <= run.last && ss != []
    requires size(ss[0].end - 1) > run.last
    ensures var s := ss[0];
            var from, to := FirstPast(size, run.first, s, s.start), FirstPast(size, run.last, s, s.start);
            from <= h < to + 1 <==> Reached(size, run, ss, h)
  {
    var s := ss[0];
    var from, to := FirstPast(size, run.first, s, s.start), FirstPast(size, run.last, s, s.start);
    InSomeSplit(ss, h);
    assert InSome(ss, s.end - 1) && InSome(ss, to) by {
      InSomeSplit(ss, s.end - 1);
      InSomeSplit(ss, to);
    }
    if !s.Has(h) && InSome(ss, h) {
      LaterIsHigher(ss, h);
    }
    if from <= h <= to {
      assert size(from) <= size(h);
      forall g | 0 <= g < h && InSome(ss, g) ensures size(g) <= run.last {
        InSomeSplit(ss, g);
        if !s.Has(g) {
          LaterIsHigher(ss, g);
        }
      }
    }
  }

  lemma TakeFirst(size: Sizes, run: PositionRun, ss: seq<Heights>, h: nat)
    requires Stretches(ss) && Monotone(size) && run.first <= run.last && ss != []
    requires run.first < size(ss[0].end - 1) <= run.last
    ensures var s := ss[0];
            var from := FirstPast(size, run.first, s, s.start);
            (from <= h < s.end || Reached(size, run, ss[1..], h)) <==> Reached(size, run, ss, h)
    ensures var s := ss[0];
            var from := FirstPast(size, run.first, s, s.start);
            forall rs: seq<Heights> :: InSome([Heights(from, s.end)] + rs, h) <==> from <= h < s.end || InSome(rs, h)
  {
    var s := ss[0];
    var from := FirstPast(size, run.first, s, s.start);
    InSomeSplit(ss, h);
    forall g | 0 <= g < h && InSome(ss, g) ensures InSome(ss[1..], g) || size(g) <= run.last {
      InSomeSplit(ss, g);
      if s.Has(g) {
        BelowEnd(size, s, g);
      }
    }
    forall g | 0 <= g < h && InSome(ss[1..], g) ensures InSome(ss, g) {
      InSomeSplit(ss, g);
    }
    forall g: nat | InSome(ss[1..], g) ensures g >= s.end {
      LaterIsHigher(ss, g);
    }
    if from <= h < s.end {
      assert size(from) <= size(h);
    }
    forall rs: seq<Heights> ensures InSome([Heights(from, s.end)] + rs, h) <==> from <= h < s.end || InSome(rs, h) {
      InSomeCons(Heights(from, s.end), rs, h);
    }
  }

  /** Each range of `rs` lies inside a stretch of `ss`. */
  ghost predicate Inside(rs: seq<Heights>, ss: seq<Heights>) {
    forall i | 0 <= i < |rs| :: InsideOne(rs[i], ss)
  }

  ghost predicate InsideOne(r: Heights, ss: seq<Heights>) {
    exists j | 0 <= j < |ss| :: ss[j].start <= r.start && r.end <= ss[j].end
  }

  lemma InsideRest(r: Heights, ss: seq<Heights>)
    requires Stretches(ss) && ss != [] && InsideOne(r, ss[1..])
    ensures InsideOne(r, ss) && r.start >= ss[0].end
  {
    var j :| 0 <= j < |ss[1..]| && ss[1..][j].start <= r.start && r.end <= ss[1..][j].end;
    assert ss[1..][j] == ss[j + 1];
  }

  lemma OrderedCons(r: Heights, tail: seq<Heights>, ss: seq<Heights>)
    requires Stretches(ss) && ss != [] && Stretches(tail) && Inside(tail, ss[1..])
    requires ss[0].start <= r.start < r.end <= ss[0].end
    ensures Stretches([r] + tail) && Inside([r] + tail, ss)
  {
    forall i | 0 <= i < |tail| ensures InsideOne(tail[i], ss) && tail[i].start >= ss[0].end {
      InsideRest(tail[i], ss);
    }
    assert InsideOne(r, ss);
  }

  /** The reference's ranges ascend, are disjoint and non-empty, and lie inside the
      stretches. */
  lemma {:induction false} RescansOrdered(size: Sizes, run: PositionRun, ss: seq<Heights>)
    requires Stretches(ss) && Monotone(size) && run.first <= run.last
    ensures Stretches(Rescans(size, run, ss)) && Inside(Rescans(size, run, ss), ss)
    decreases |ss|
  {
    hide Inside, InsideOne;
    if ss == [] {
      InsideNone(ss);
    } else {
      var s, rest := ss[0], ss[1..];
      var tail := Rescans(size, run, rest);
      RescansOrdered(size, run, rest);
      var endSize := size(s.end - 1);
      if endSize <= run.first {
        InsideMore(tail, ss);
      } else if endSize > run.last {
        FromBeforeTo(size, run, s);
        InsideNone(rest);
        OrderedCons(Rescans(size, run, ss)[0], [], ss);
        assert Rescans(size, run, ss) == [Rescans(size, run, ss)[0]] + [];
      } else {
        OrderedCons(Rescans(size, run, ss)[0], tail, ss);
      }
    }
  }

  lemma InsideNone(ss: seq<Heights>)
    ensures Inside([], ss)
  {
  }

  lemma InsideMore(rs: seq<Heights>, ss: seq<Heights>)
    requires Stretches(ss) && ss != [] && Inside(rs, ss[1..])
    ensures Inside(rs, ss)
  {
    forall i | 0 <= i < |rs| ensures InsideOne(rs[i], ss) {
      InsideRest(rs[i], ss);
    }
  }

  lemma FromBeforeTo(size: Sizes, run: PositionRun, s: Heights)
    requires Monotone(size) && run.first <= run.last && s.start < s.end && size(s.end - 1) > run.last
    ensures FirstPast(size, run.first, s, s.start) <= FirstPast(size, run.last, s, s.start)
  {
  }

  /** Soundness: a scanned block that holds any position of the run is scanned again. */
  lemma RescansSound(size: Sizes, run: PositionRun, ss: seq<Heights>, h: nat, p: nat)
    requires Stretches(ss) && Monotone(size) && run.first <= p <= run.last
    requires InSome(ss, h) && p < size(h) && (h > 0 ==> size(h - 1) <= p)
    ensures InSome(Rescans(size, run, ss), h)
  {
    RescansAreReached(size, run, ss, h);
    forall g | 0 <= g < h && InSome(ss, g) ensures size(g) <= run.last {
      assert size(g) <= size(h - 1);
    }
  }

  // ── The walks ────────────────────────────────────────────────────────────

  ghost predicate AllKnown(known: nat -> Option<nat>, ss: seq<Heights>) {
    forall i, h | 0 <= i < |ss| && ss[i].Has(h) :: known(h).Some?
  }

  /** Where a run lies with respect to a stretch: entirely after it, reaching its end from
      `from` on, or from `from` to `to` inside it. */
  datatype Visit = After | Through(from: nat) | Within(from: nat, to: nat)

  ghost predicate IsVisit(size: Sizes, run: PositionRun, s: Heights, v: Visit)
    requires s.start < s.end
  {
    var endSize := size(s.end - 1);
    match v
    case After => endSize <= run.first
    case Through(from) => run.first < endSize <= run.last && IsFirstPast(size, run.first, s, from)
    case Within(from, to) =>
      endSize > run.last && IsFirstPast(size, run.first, s, from) && IsFirstPast(size, run.last, s, to)
  }

  /** What a visit reads of a stretch is known: its end, and where the run goes past one of
      its bounds inside it, the search path to that block. */
  ghost predicate VisitKnown(known: nat -> Option<nat>, size: Sizes, run: PositionRun, s: Heights)
    requires s.start < s.end
  {
    && known(s.end - 1).Some?
    && (size(s.end - 1) > run.first ==> Decided(known, size, run.first, s))
    && (size(s.end - 1) > run.last ==> Decided(known, size, run.last, s))
  }

  /** The oldest-first walk can place the run: each stretch up to the one the run ends in is
      known as far as a visit reads it. */
  ghost predicate OldestPlaces(known: nat -> Option<nat>, size: Sizes, run: PositionRun, ss: seq<Heights>)
    requires Stretches(ss)
  {
    forall i | 0 <= i < |ss| && (forall j | 0 <= j < i :: size(ss[j].end - 1) <= run.last) ::
      VisitKnown(known, size, run, ss[i])
  }

  /** The newest-first walk can place the run: so is each stretch down to the one the run is
      seen to begin in, the first whose own first block does not go past the run's start. */
  ghost predicate NewestPlaces(known: nat -> Option<nat>, size: Sizes, run: PositionRun, ss: seq<Heights>)
    requires Stretches(ss)
  {
    forall i | 0 <= i < |ss| && (forall j | i < j < |ss| :: size(ss[j].start) > run.first) ::
      VisitKnown(known, size, run, ss[i])
  }

  lemma {:induction false} AllPathKnown(known: nat -> Option<nat>, size: Sizes, position: nat, lo: nat, hi: nat)
    requires forall h | lo <= h <= hi :: known(h).Some?
    ensures PathKnown(known, size, position, lo, hi)
    decreases hi - lo
  {
    if lo < hi {
      var mid := lo + (hi - lo) / 2;
      AllPathKnown(known, size, position, lo, mid);
      AllPathKnown(known, size, position, mid + 1, hi);
    }
  }

  /** With every size of the stretches known both walks can place any run. */
  lemma AllKnownPlaces(known: nat -> Option<nat>, size: Sizes, run: PositionRun, ss: seq<Heights>)
    requires Stretches(ss) && AllKnown(known, ss)
    ensures OldestPlaces(known, size, run, ss) && NewestPlaces(known, size, run, ss)
  {
    hide PathKnown;
    forall i | 0 <= i < |ss| ensures VisitKnown(known, size, run, ss[i]) {
      var s := ss[i];
      assert forall h | s.start <= h <= s.end - 1 :: s.Has(h);
      AllPathKnown(known, size, run.first, s.start, s.end - 1);
      AllPathKnown(known, size, run.last, s.start, s.end - 1);
    }
  }

  /** What both walks read of a stretch; `None` exactly when a size they need is missing. */
  method VisitStretch(known: nat -> Option<nat>, run: PositionRun, s: Heights, ghost size: Sizes)
    returns (v: Option<Visit>)
    requires s.start < s.end && Monotone(size) && Agrees(known, size) && run.first <= run.last
    ensures v.Some? ==> IsVisit(size, run, s, v.value)
    ensures v.Some? <==> VisitKnown(known, size, run, s)
  {
    hide PathKnown, Monotone;
    if known(s.end - 1).None? {
      return None;
    }
    var endSize := known(s.end - 1).value;
    if endSize <= run.first {
      return Some(After);
    }
    var from := FirstBlockPast(known, run.first, s, size);
    if from.None? {
      return None;
    }
    if endSize > run.last {
      var to := FirstBlockPast(known, run.last, s, size);
      return if to.None? then None else Some(Within(from.value, to.value));
    }
    return Some(Through(from.value));
  }

  /** One step of the reference at stretch `k`. */
  lemma RescansStep(size: Sizes, run: PositionRun, ss: seq<Heights>, k: nat, v: Visit)
    requires Stretches(ss) && k < |ss| && Monotone(size) && run.first <= run.last && IsVisit(size, run, ss[k], v)
    ensures Stretches(ss[k..]) && Stretches(ss[k + 1..])
    ensures v.After? ==> Rescans(size, run, ss[k..]) == Rescans(size, run, ss[k + 1..])
    ensures v.Through? ==>
              Rescans(size, run, ss[k..]) == [Heights(v.from, ss[k].end)] + Rescans(size, run, ss[k + 1..])
    ensures v.Within? ==> Rescans(size, run, ss[k..]) == [Heights(v.from, v.to + 1)]
  {
    assert ss[k..][0] == ss[k] && ss[k..][1..] == ss[k + 1..];
  }

  method WalkFromOldest(known: nat -> Option<nat>, run: PositionRun, ss: seq<Heights>, ghost size: Sizes)
    returns (r: Option<seq<Heights>>)
    requires Stretches(ss) && Monotone(size) && Agrees(known, size) && run.first <= run.last
    ensures r.Some? ==> r.value == Rescans(size, run, ss)
    ensures r.Some? <==> OldestPlaces(known, size, run, ss)
  {
    hide Rescans, Monotone, Agrees, IsVisit, VisitKnown;
    var rescans := [];
    var k := 0;
    assert ss[0..] == ss;
    while k < |ss|
      invariant 0 <= k <= |ss| && Stretches(ss[k..])
      invariant Rescans(size, run, ss) == rescans + Rescans(size, run, ss[k..])
      invariant forall i | 0 <= i < k :: size(ss[i].end - 1) <= run.last && VisitKnown(known, size, run, ss[i])
    {
      var s := ss[k];
      var visit := VisitStretch(known, run, s, size);
      if visit.None? {
        return None;
      }
      RescansStep(size, run, ss, k, visit.value);
      VisitEnd(size, run, s, visit.value);
      match visit.value {
        case After =>
          assert rescans + Rescans(size, run, ss[k + 1..]) == Rescans(size, run, ss);
        case Through(from) =>
          ghost var rest := Rescans(size, run, ss[k + 1..]);
          assert rescans + ([Heights(from, s.end)] + rest) == (rescans + [Heights(from, s.end)]) + rest;
          rescans := rescans + [Heights(from, s.end)];
        case Within(from, to) =>
          assert Rescans(size, run, ss) == rescans + [Heights(from, to + 1)];
          return Some(rescans + [Heights(from, to + 1)]);
      }
      k := k + 1;
    }
    NoRescans(size, run);
    assert ss[|ss|..] == [] && rescans + [] == rescans;
    r := Some(rescans);
  }

  /** A visit knows where the stretch ends with respect to the run, and where it starts. */
  lemma VisitEnd(size: Sizes, run: PositionRun, s: Heights, v: Visit)
    requires s.start < s.end && Monotone(size) && run.first <= run.last && IsVisit(size, run, s, v)
    ensures v.Within? <==> size(s.end - 1) > run.last
    ensures size(s.start) > run.first <==> !v.After? && v.from == s.start
    ensures !v.After? ==> s.Has(v.from) && (v.from > s.start ==> size(v.from - 1) <= run.first)
  {
  }

  lemma NoRescans(size: Sizes, run: PositionRun)
    ensures Rescans(size, run, []) == []
  {
  }

  function Reverse(rs: seq<Heights>): seq<Heights> {
    if rs == [] then [] else [Last(rs)] + Reverse(rs[..|rs| - 1])
  }

  lemma ReverseSnoc(rs: seq<Heights>, r: Heights)
    ensures Reverse(rs + [r]) == [r] + Reverse(rs)
  {
    assert (rs + [r])[..|rs|] == rs;
  }

  /** Stretches that end at or before the run's first position add nothing. */
  lemma {:induction false} OldAddNothing(size: Sizes, run: PositionRun, ss: seq<Heights>, k: nat)
    requires Stretches(ss) && Monotone(size) && run.first <= run.last && k <= |ss|
    requires forall i | 0 <= i < k :: size(ss[i].end - 1) <= run.first
    ensures Stretches(ss[k..]) && Rescans(size, run, ss) == Rescans(size, run, ss[k..])
  {
    hide Rescans, Monotone, IsFirstPast;
    if k == 0 {
      assert ss[0..] == ss;
    } else {
      OldAddNothing(size, run, ss, k - 1);
      RescansStep(size, run, ss, k - 1, After);
    }
  }

  /** Older stretches end below a height at or before which the run has not begun. */
  lemma OlderEndBefore(size: Sizes, run: PositionRun, ss: seq<Heights>, k: nat, at: nat)
    requires Stretches(ss) && Monotone(size) && k < |ss| && ss[k].start <= at < ss[k].end && size(at) <= run.first
    ensures forall i | 0 <= i < k :: size(ss[i].end - 1) <= run.first
  {
    forall i | 0 <= i < k ensures size(ss[i].end - 1) <= run.first {
      assert size(ss[i].end - 1) <= size(at);
    }
  }

  /** What the walk has collected, newest first, is what the reference returns for the
      stretches from `k` on. */
  ghost predicate Collected(
    size: Sizes, run: PositionRun, ss: seq<Heights>, k: nat, rescans: seq<Heights>, pastLast: Option<Heights>) {
    && k <= |ss| && Stretches(ss[k..])
    && (pastLast.Some? ==> rescans == [])
    && Rescans(size, run, ss[k..]) == Reverse(rescans + Held(pastLast))
    && (rescans != [] ==> k < |ss| && ss[k].end > 0 && size(ss[k].end - 1) <= run.last)
  }

  function Held(r: Option<Heights>): seq<Heights> {
    if r.Some? then [r.value] else []
  }

  lemma CollectThrough(
    size: Sizes, run: PositionRun, ss: seq<Heights>, k: nat, rescans: seq<Heights>, pastLast: Option<Heights>,
    from: nat)
    requires Stretches(ss) && Monotone(size) && run.first <= run.last && k < |ss|
    requires Collected(size, run, ss, k + 1, rescans, pastLast) && IsVisit(size, run, ss[k], Through(from))
    ensures Collected(size, run, ss, k, rescans + Held(pastLast) + [Heights(from, ss[k].end)], None)
  {
    hide Rescans, Monotone, IsFirstPast, Reverse;
    RescansStep(size, run, ss, k, Through(from));
    var all := rescans + Held(pastLast);
    ReverseSnoc(all, Heights(from, ss[k].end));
    assert all + [Heights(from, ss[k].end)] + Held(None) == all + [Heights(from, ss[k].end)];
  }

  lemma CollectWithin(
    size: Sizes, run: PositionRun, ss: seq<Heights>, k: nat, rescans: seq<Heights>, pastLast: Option<Heights>,
    from: nat, to: nat)
    requires Stretches(ss) && Monotone(size) && run.first <= run.last && k < |ss|
    requires Collected(size, run, ss, k + 1, rescans, pastLast) && IsVisit(size, run, ss[k], Within(from, to))
    ensures rescans == [] && Collected(size, run, ss, k, [], Some(Heights(from, to + 1)))
  {
    hide Rescans, IsFirstPast;
    RescansStep(size, run, ss, k, Within(from, to));
    NewerEndsLater(size, ss, k + 1);
    var one := Heights(from, to + 1);
    ReverseSnoc([], one);
    assert Reverse([]) == [] && [] + [one] == [one];
  }

  lemma CollectNothing(size: Sizes, run: PositionRun, ss: seq<Heights>)
    ensures Collected(size, run, ss, |ss|, [], None)
  {
    assert ss[|ss|..] == [];
  }

  lemma CollectAll(
    size: Sizes, run: PositionRun, ss: seq<Heights>, k: nat, rescans: seq<Heights>, pastLast: Option<Heights>)
    requires Stretches(ss) && Monotone(size) && run.first <= run.last
    requires Collected(size, run, ss, k, rescans, pastLast)
    requires forall i | 0 <= i < k :: size(ss[i].end - 1) <= run.first
    ensures Rescans(size, run, ss) == Reverse(rescans + Held(pastLast))
  {
    OldAddNothing(size, run, ss, k);
  }

  /** The newest-first walk has come down to stretch `k` without seeing the run begin. */
  ghost predicate NewestOpen(known: nat -> Option<nat>, size: Sizes, run: PositionRun, ss: seq<Heights>, k: nat)
    requires Stretches(ss)
  {
    forall i | k <= i < |ss| :: size(ss[i].start) > run.first && VisitKnown(known, size, run, ss[i])
  }

  /** What its next visit settles: a missing size ends it, a beginning settles it, and
      otherwise it goes on. */
  lemma NewestVisit(known: nat -> Option<nat>, size: Sizes, run: PositionRun, ss: seq<Heights>, k: nat)
    requires Stretches(ss) && 0 < k <= |ss| && NewestOpen(known, size, run, ss, k)
    ensures var s := ss[k - 1];
            && (!VisitKnown(known, size, run, s) ==> !NewestPlaces(known, size, run, ss))
            && (VisitKnown(known, size, run, s) && size(s.start) <= run.first ==> NewestPlaces(known, size, run, ss))
            && (VisitKnown(known, size, run, s) && size(s.start) > run.first ==>
                NewestOpen(known, size, run, ss, k - 1))
  {
    hide VisitKnown;
  }

  lemma NewestAll(known: nat -> Option<nat>, size: Sizes, run: PositionRun, ss: seq<Heights>)
    requires Stretches(ss) && NewestOpen(known, size, run, ss, 0)
    ensures NewestPlaces(known, size, run, ss)
  {
    hide VisitKnown;
  }

  method WalkFromNewest(known: nat -> Option<nat>, run: PositionRun, ss: seq<Heights>, ghost size: Sizes)
    returns (r: Option<seq<Heights>>)
    requires Stretches(ss) && Monotone(size) && Agrees(known, size) && run.first <= run.last
    ensures r.Some? ==> r.value == Rescans(size, run, ss)
    ensures r.Some? <==> NewestPlaces(known, size, run, ss)
  {
    hide Rescans, Monotone, Agrees, Collected, Reverse, IsVisit, VisitKnown, NewestPlaces, Held;
    var rescans: seq<Heights> := [];
    var pastLast: Option<Heights> := None;
    var k := |ss|;
    CollectNothing(size, run, ss);
    var begun := false;
    while k > 0 && !begun
      invariant 0 <= k <= |ss|
      invariant Collected(size, run, ss, k, rescans, pastLast)
      invariant begun ==> forall i | 0 <= i < k :: size(ss[i].end - 1) <= run.first
      invariant if begun then NewestPlaces(known, size, run, ss) else NewestOpen(known, size, run, ss, k)
      decreases k, !begun
    {
      var s := ss[k - 1];
      var visit := VisitStretch(known, run, s, size);
      NewestVisit(known, size, run, ss, k);
      if visit.None? {
        return None;
      }
      VisitEnd(size, run, s, visit.value);
      match visit.value {
        case After =>
          AfterEnds(size, run, s);
          OlderEndBefore(size, run, ss, k - 1, s.end - 1);
          begun := true;
        case Through(from) =>
          CollectThrough(size, run, ss, k - 1, rescans, pastLast, from);
          rescans := rescans + Held(pastLast) + [Heights(from, s.end)];
          pastLast := None;
          k := k - 1;
        case Within(from, to) =>
          CollectWithin(size, run, ss, k - 1, rescans, pastLast, from, to);
          pastLast := Some(Heights(from, to + 1));
          k := k - 1;
      }
      if !visit.value.After? && visit.value.from > s.start {
        OlderEndBefore(size, run, ss, k, visit.value.from - 1);
        begun := true;
      }
    }
    if !begun {
      NewestAll(known, size, run, ss);
    }
    CollectAll(size, run, ss, k, rescans, pastLast);
    rescans := rescans + Held(pastLast);
    r := Some(Reverse(rescans));
  }

  lemma AfterEnds(size: Sizes, run: PositionRun, s: Heights)
    requires s.start < s.end && IsVisit(size, run, s, After)
    ensures size(s.end - 1) <= run.first
  {
  }

  lemma NewerEndsLater(size: Sizes, ss: seq<Heights>, k: nat)
    requires Stretches(ss) && Monotone(size) && 0 < k <= |ss|
    ensures k < |ss| ==> size(ss[k - 1].end - 1) <= size(ss[k].end - 1)
  {
  }

  /** Newest first, and oldest first when that cannot place the run: whichever places it
      returns what the oldest-first walk would with every size known, and one of them does
      exactly when the blocks one of them reads have known sizes. */
  method RescansFor(known: nat -> Option<nat>, run: PositionRun, ss: seq<Heights>, ghost size: Sizes)
    returns (r: Option<seq<Heights>>)
    requires Stretches(ss) && Monotone(size) && Agrees(known, size) && run.first <= run.last
    ensures r.Some? ==> r.value == Rescans(size, run, ss)
    ensures r.Some? <==> NewestPlaces(known, size, run, ss) || OldestPlaces(known, size, run, ss)
    ensures AllKnown(known, ss) ==> r.Some?
  {
    hide OldestPlaces, NewestPlaces, AllKnown, Rescans, Monotone, Agrees;
    if AllKnown(known, ss) {
      AllKnownPlaces(known, size, run, ss);
    }
    r := WalkFromNewest(known, run, ss, size);
    if r.None? {
      r := WalkFromOldest(known, run, ss, size);
    }
  }
}
