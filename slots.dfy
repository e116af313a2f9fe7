/** The quarter enumeration shared by `get_budget_periods`
    (`iatiflattener/lib/iati_budget_helpers.py`) and its twin
    `ActivityBudget._get_budget_periods` (`iatiflattener/model.py`): the years
    of a budget period, the quarters of each year, and the even split of a
    value over them. */
module Slots {

  /** The fiscal year and quarter of a period's start and of its end. */
  datatype Bounds = Bounds(startFy: int, startFq: int, endFy: int, endFq: int)

  predicate WellFormed(b: Bounds) {
    1 <= b.startFq <= 4 && 1 <= b.endFq <= 4
  }

  /** The period ends before it starts, at quarter granularity. */
  predicate Inverted(b: Bounds) {
    b.endFy < b.startFy || (b.endFy == b.startFy && b.endFq < b.startFq)
  }

  /** One quarter row: its year and quarter, how many quarters its year has in
      the period (`len(quarter_range)`) and how many years the period has
      (`len(year_range)`). */
  datatype Slot = Slot(year: int, quarter: int, quarters: nat, years: nat)

  /** `len(range(a, b + 1))`. */
  function RangeLen(lo: int, hi: int): (n: nat)
    ensures hi >= lo ==> n == hi - lo + 1
    ensures hi < lo ==> n == 0
  {
    if hi >= lo then hi - lo + 1 else 0
  }

  /** `len(year_range)`. */
  function Years(b: Bounds): nat {
    RangeLen(b.startFy, b.endFy)
  }

  /** The first and last quarter of `quarter_range` for a year of the period. */
  function QuarterBounds(b: Bounds, year: int): (int, int) {
    if year == b.startFy && year == b.endFy then (b.startFq, b.endFq)
    else if year == b.startFy then (b.startFq, 4)
    else if year == b.endFy then (1, b.endFq)
    else (1, 4)
  }

  /** The slots of one year, in ascending quarter order. */
  function YearSlots(b: Bounds, year: int): (r: seq<Slot>)
    ensures var (lo, hi) := QuarterBounds(b, year);
      |r| == RangeLen(lo, hi) &&
      forall k :: 0 <= k < |r| ==> r[k] == Slot(year, lo + k, RangeLen(lo, hi), Years(b))
  {
    var (lo, hi) := QuarterBounds(b, year);
    var n := RangeLen(lo, hi);
    seq(n, k requires 0 <= k < n => Slot(year, lo + k, n, Years(b)))
  }

  /** The slots of the first `k` years of the period. */
  function SlotsUpTo(b: Bounds, k: nat): seq<Slot>
    requires k <= Years(b)
  {
    if k == 0 then [] else SlotsUpTo(b, k - 1) + YearSlots(b, b.startFy + k - 1)
  }

  /** All slots of the period: ascending year, then ascending quarter. */
  function AllSlots(b: Bounds): seq<Slot> {
    SlotsUpTo(b, Years(b))
  }

  /** A slot's part of `v`: `v / len(quarter_range) / len(year_range)` (no
      slot the enumeration builds has a zero divisor). */
  function Part(s: Slot, v: real): real {
    if s.quarters > 0 && s.years > 0 then v / s.quarters as real / s.years as real else 0.0
  }

  /** Sum of the parts of `v` over a sequence of slots. */
  function SumParts(xs: seq<Slot>, v: real): real {
    if xs == [] then 0.0 else SumParts(xs[..|xs| - 1], v) + Part(xs[|xs| - 1], v)
  }

  /** Sum of `f` over a sequence. */
  function Total<T>(xs: seq<T>, f: T -> real): real {
    if xs == [] then 0.0 else Total(xs[..|xs| - 1], f) + f(xs[|xs| - 1])
  }

  // ------------------------------------------------------------ properties

  /** An inverted period has no slot at all. */
  lemma InvertedHasNoSlots(b: Bounds)
    requires Inverted(b)
    ensures AllSlots(b) == []
  {
    if Years(b) > 0 {
      assert Years(b) == 1;
      assert SlotsUpTo(b, 1) == SlotsUpTo(b, 0) + YearSlots(b, b.startFy);
    }
  }

  /** In a period that is not inverted every year has at least one quarter,
      and the quarter bounds stay within 1..4. */
  lemma YearHasQuarters(b: Bounds, year: int)
    requires WellFormed(b) && !Inverted(b) && b.startFy <= year <= b.endFy
    ensures var (lo, hi) := QuarterBounds(b, year); 1 <= lo <= hi <= 4
  {
  }

  /** Every slot lies inside the period, has a quarter in 1..4 and positive
      divisors. */
  lemma {:induction false} SlotsUpToInside(b: Bounds, k: nat)
    requires WellFormed(b) && k <= Years(b)
    ensures forall i :: 0 <= i < |SlotsUpTo(b, k)| ==>
      SlotInside(b, SlotsUpTo(b, k)[i]) && SlotsUpTo(b, k)[i].year < b.startFy + k
  {
    if k > 0 {
      SlotsUpToInside(b, k - 1);
      var year := b.startFy + k - 1;
      if !Inverted(b) {
        YearHasQuarters(b, year);
      }
    }
  }

  predicate SlotInside(b: Bounds, s: Slot) {
    b.startFy <= s.year <= b.endFy && 1 <= s.quarter <= 4 &&
    s.quarters > 0 && s.years == Years(b) && s.years > 0
  }

  lemma AllSlotsInside(b: Bounds)
    requires WellFormed(b)
    ensures forall s :: s in AllSlots(b) ==> SlotInside(b, s)
  {
    SlotsUpToInside(b, Years(b));
  }

  /** `(year, quarter)` strictly before `(year', quarter')`. */
  predicate Before(s: Slot, t: Slot) {
    s.year < t.year || (s.year == t.year && s.quarter < t.quarter)
  }

  /** The slots come in ascending year, then ascending quarter order, so no
      quarter of the period appears twice. */
  lemma {:induction false} SlotsUpToAscending(b: Bounds, k: nat)
    requires WellFormed(b) && k <= Years(b)
    ensures forall i, j :: 0 <= i < j < |SlotsUpTo(b, k)| ==> Before(SlotsUpTo(b, k)[i], SlotsUpTo(b, k)[j])
  {
    if k > 0 {
      SlotsUpToAscending(b, k - 1);
      SlotsUpToInside(b, k - 1);
      var prev := SlotsUpTo(b, k - 1);
      var ys := YearSlots(b, b.startFy + k - 1);
      var all := SlotsUpTo(b, k);
      assert all == prev + ys;
      forall i, j | 0 <= i < j < |all| ensures Before(all[i], all[j]) {
        if j < |prev| {
          assert all[i] == prev[i] && all[j] == prev[j];
        } else if i < |prev| {
          assert all[i] == prev[i] && all[j] == ys[j - |prev|];
        } else {
          assert all[i] == ys[i - |prev|] && all[j] == ys[j - |prev|];
        }
      }
    }
  }

  lemma AllSlotsAscending(b: Bounds)
    requires WellFormed(b)
    ensures forall i, j :: 0 <= i < j < |AllSlots(b)| ==> Before(AllSlots(b)[i], AllSlots(b)[j])
  {
    SlotsUpToAscending(b, Years(b));
  }

  /** The number of quarter rows a period that is not inverted gives. */
  lemma SlotCount(b: Bounds)
    requires WellFormed(b) && !Inverted(b)
    ensures b.startFy == b.endFy ==> |AllSlots(b)| == b.endFq - b.startFq + 1
    ensures b.startFy < b.endFy ==>
      |AllSlots(b)| == (5 - b.startFq) + 4 * (b.endFy - b.startFy - 1) + b.endFq
  {
    var n := Years(b);
    if n == 1 {
      assert AllSlots(b) == SlotsUpTo(b, 0) + YearSlots(b, b.startFy);
    } else {
      MiddleCount(b, n - 1);
      assert AllSlots(b) == SlotsUpTo(b, n - 1) + YearSlots(b, b.endFy);
    }
  }

  lemma {:induction false} MiddleCount(b: Bounds, k: nat)
    requires WellFormed(b) && b.startFy < b.endFy && 1 <= k < Years(b)
    ensures |SlotsUpTo(b, k)| == (5 - b.startFq) + 4 * (k - 1)
  {
    if k > 1 {
      MiddleCount(b, k - 1);
    } else {
      assert SlotsUpTo(b, 1) == SlotsUpTo(b, 0) + YearSlots(b, b.startFy);
    }
  }

  lemma {:induction false} TotalAppend<T>(xs: seq<T>, ys: seq<T>, f: T -> real)
    ensures Total(xs + ys, f) == Total(xs, f) + Total(ys, f)
    decreases |ys|
  {
    if ys == [] {
      assert xs + ys == xs;
    } else {
      var zs := xs + ys;
      assert zs[..|zs| - 1] == xs + ys[..|ys| - 1];
      TotalAppend(xs, ys[..|ys| - 1], f);
    }
  }

  /** A sum of `n` equal terms. */
  lemma {:induction false} TotalConstant<T>(xs: seq<T>, f: T -> real, c: real)
    requires forall i :: 0 <= i < |xs| ==> f(xs[i]) == c
    ensures Total(xs, f) == |xs| as real * c
  {
    if xs != [] {
      TotalConstant(xs[..|xs| - 1], f, c);
    }
  }

  /** A sequence whose terms are the parts of `v` over some slots sums to the
      sum of those parts. */
  lemma {:induction false} TotalOfParts<T>(xs: seq<T>, f: T -> real, slots: seq<Slot>, v: real)
    requires |xs| == |slots| && forall i :: 0 <= i < |xs| ==> f(xs[i]) == Part(slots[i], v)
    ensures Total(xs, f) == SumParts(slots, v)
  {
    if xs != [] {
      TotalOfParts(xs[..|xs| - 1], f, slots[..|slots| - 1], v);
    }
  }

  lemma {:induction false} SumPartsAppend(xs: seq<Slot>, ys: seq<Slot>, v: real)
    ensures SumParts(xs + ys, v) == SumParts(xs, v) + SumParts(ys, v)
    decreases |ys|
  {
    if ys == [] {
      assert xs + ys == xs;
    } else {
      var zs := xs + ys;
      assert zs[..|zs| - 1] == xs + ys[..|ys| - 1];
      SumPartsAppend(xs, ys[..|ys| - 1], v);
    }
  }

  lemma {:induction false} SumPartsConstant(xs: seq<Slot>, v: real, c: real)
    requires forall i :: 0 <= i < |xs| ==> Part(xs[i], v) == c
    ensures SumParts(xs, v) == |xs| as real * c
  {
    if xs != [] {
      SumPartsConstant(xs[..|xs| - 1], v, c);
    }
  }

  lemma EqualParts(n: nat, m: nat, v: real)
    requires n > 0 && m > 0
    ensures n as real * (v / n as real / m as real) == v / m as real
  {
  }

  /** The parts of one year add up to `v / len(year_range)`. */
  lemma YearTotal(b: Bounds, year: int, v: real)
    requires WellFormed(b) && !Inverted(b) && b.startFy <= year <= b.endFy
    ensures SumParts(YearSlots(b, year), v) == v / Years(b) as real
  {
    YearHasQuarters(b, year);
    var ys := YearSlots(b, year);
    var n := |ys|;
    var c := v / n as real / Years(b) as real;
    SumPartsConstant(ys, v, c);
    EqualParts(n, Years(b), v);
  }

  /** The parts of the first `k` years add up to `k * v / len(year_range)`. */
  lemma {:induction false} SlotsUpToTotal(b: Bounds, k: nat, v: real)
    requires WellFormed(b) && !Inverted(b) && k <= Years(b)
    ensures SumParts(SlotsUpTo(b, k), v) == k as real * (v / Years(b) as real)
  {
    SlotsUpToRepeat(b, k, v);
    RepeatIs(k, v / Years(b) as real);
  }

  /** The parts of the first `k` years are `k` times `v / len(year_range)`. */
  lemma {:induction false} SlotsUpToRepeat(b: Bounds, k: nat, v: real)
    requires WellFormed(b) && !Inverted(b) && k <= Years(b)
    ensures SumParts(SlotsUpTo(b, k), v) == Repeat(k, v / Years(b) as real)
  {
    if k > 0 {
      SlotsUpToRepeat(b, k - 1, v);
      SlotsUpToStep(b, k, v);
    }
  }

  /** `w + w + ... + w`, `k` times. */
  function Repeat(k: nat, w: real): real {
    if k == 0 then 0.0 else Repeat(k - 1, w) + w
  }

  lemma {:induction false} RepeatIs(k: nat, w: real)
    ensures Repeat(k, w) == k as real * w
  {
    if k > 0 {
      RepeatIs(k - 1, w);
    }
  }

  /** Year `k` adds `v / len(year_range)` to the parts of the years before it. */
  lemma SlotsUpToStep(b: Bounds, k: nat, v: real)
    requires WellFormed(b) && !Inverted(b) && 0 < k <= Years(b)
    ensures SumParts(SlotsUpTo(b, k), v) == SumParts(SlotsUpTo(b, k - 1), v) + v / Years(b) as real
  {
    var prev := SlotsUpTo(b, k - 1);
    var ys := YearSlots(b, b.startFy + k - 1);
    assert SlotsUpTo(b, k) == prev + ys;
    SumPartsAppend(prev, ys, v);
    YearTotal(b, b.startFy + k - 1, v);
  }

  /** Conservation: the parts of all the slots of a period that is not
      inverted add up to the whole value. The split is even per year and even
      per quarter within a year; it does not weigh days. */
  lemma PartsSumToWhole(b: Bounds, v: real)
    requires WellFormed(b) && !Inverted(b)
    ensures SumParts(AllSlots(b), v) == v
  {
    SlotsUpToTotal(b, Years(b), v);
    var n := Years(b) as real;
    assert n * (v / n) == v;
  }
}
