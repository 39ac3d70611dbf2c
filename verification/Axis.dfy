// The chart axis bounds (src/tui/ui.rs): rounding up to 1, 2 or 5 times a power
// of ten in 64-bit arithmetic, and the hysteresis over a window of samples.

module Axis {
  import opened Arithmetic

  const U64_SIZE: nat := 0x1_0000_0000_0000_0000

  type U64 = x: nat | x < U64_SIZE

  function Pow10(k: nat): (p: nat)
    ensures p > 0
  {
    if k == 0 then 1 else 10 * Pow10(k - 1)
  }

  lemma {:induction false} Pow10Grows(j: nat, k: nat)
    requires j <= k
    ensures Pow10(j) <= Pow10(k)
  {
    if j < k { Pow10Grows(j, k - 1); }
  }

  lemma Pow10Gap(j: nat, k: nat)
    requires j < k
    ensures 10 * Pow10(j) <= Pow10(k)
  {
    Pow10Grows(j + 1, k);
  }

  // The number of decimal digits, less one.
  function Log10(value: nat): (k: nat)
    requires value > 0
    ensures Pow10(k) <= value < 10 * Pow10(k)
  {
    if value < 10 then 0 else 1 + Log10(value / 10)
  }

  function Step(normalized: nat): nat {
    if normalized <= 1 then 1 else if normalized == 2 then 2 else if normalized <= 5 then 5 else 10
  }

  // The bound before the final multiplication is cut to 64 bits.
  function Bound(value: nat): nat {
    if value <= 1 then 1
    else
      var magnitude := Pow10(Log10(value));
      Step(DivCeil(value, magnitude)) * magnitude
  }

  // Release arithmetic: the multiplication wraps.
  function NiceAxisMax(value: U64): U64 {
    Bound(value) % U64_SIZE
  }

  // 1, 2 or 5 times a power of ten.
  ghost predicate Nice(n: nat) {
    exists k: nat :: n == Pow10(k) || n == 2 * Pow10(k) || n == 5 * Pow10(k)
  }

  // The normalized value is one of 1 to 10.
  lemma Normalized(value: nat, m: nat, n: int)
    requires 0 < m <= value < 10 * m
    requires (n - 1) * m < value <= n * m
    ensures 1 <= n <= 10
  {
    if n > 10 { Times(10, n - 1, m); }
    if n < 1 { Times(n, 0, m); }
  }

  predicate Brackets(value: nat, m: nat, step: nat) {
    || (step == 1 && value <= m)
    || (step == 2 && m < value <= 2 * m)
    || (step == 5 && 2 * m < value <= 5 * m)
    || (step == 10 && 5 * m < value <= 10 * m)
  }

  // Which step is taken says between which two steps the value lies.
  lemma StepBrackets(value: nat, m: nat, n: nat)
    requires 1 <= n <= 10 && (n - 1) * m < value <= n * m
    ensures Brackets(value, m, Step(n))
  {
    if 3 <= n <= 5 {
      Times(2, n - 1, m);
      Times(n, 5, m);
    } else if n > 5 {
      Times(5, n - 1, m);
      Times(n, 10, m);
    }
  }

  lemma BoundCases(value: nat, m: nat)
    requires value > 0 && m == Pow10(Log10(value))
    ensures value <= m ==> Bound(value) == m
    ensures m < value <= 2 * m ==> Bound(value) == 2 * m
    ensures 2 * m < value <= 5 * m ==> Bound(value) == 5 * m
    ensures 5 * m < value ==> Bound(value) == 10 * m
    ensures value <= 10 * m
  {
    if value == 1 {
      assert Log10(value) == 0;
    } else {
      var n := DivCeil(value, m);
      Normalized(value, m, n);
      StepBrackets(value, m, n);
      assert Bound(value) == Step(n) * m;
    }
  }

  // A nice number at or above the value is at or above the bound.
  lemma NoNicerBound(value: nat, n: nat, k: nat)
    requires value > 0 && n >= value
    requires n == Pow10(k) || n == 2 * Pow10(k) || n == 5 * Pow10(k)
    ensures n >= Bound(value)
  {
    var top := Log10(value);
    var m := Pow10(top);
    BoundCases(value, m);
    if k < top {
      Pow10Gap(k, top);
    } else if k > top {
      Pow10Gap(top, k);
    } else {
      assert n == m || n == 2 * m || n == 5 * m;
    }
  }

  // The bound is the least nice number at or above the value, and below 2.5
  // times it.
  lemma BoundIsLeastNice(value: nat)
    requires value > 0
    ensures Nice(Bound(value)) && Bound(value) >= value && 2 * Bound(value) < 5 * value
    ensures forall n: nat :: Nice(n) && n >= value ==> n >= Bound(value)
  {
    var top := Log10(value);
    var m := Pow10(top);
    BoundCases(value, m);
    assert Pow10(top + 1) == 10 * m;
    forall n: nat | Nice(n) && n >= value ensures n >= Bound(value) {
      var k: nat :| n == Pow10(k) || n == 2 * Pow10(k) || n == 5 * Pow10(k);
      NoNicerBound(value, n, k);
    }
  }

  const LARGEST: nat := 10_000_000_000_000_000_000

  lemma LargestIsPower()
    ensures Pow10(19) == LARGEST
  {
    assert Pow10(5) == 100_000;
    assert Pow10(10) == 10_000_000_000 by { assert Pow10(7) == 100 * Pow10(5); assert Pow10(9) == 100 * Pow10(7); }
    assert Pow10(15) == 1_000_000_000_000_000 by {
      assert Pow10(12) == 100 * Pow10(10);
      assert Pow10(14) == 100 * Pow10(12);
    }
    assert Pow10(17) == 100 * Pow10(15);
  }

  lemma DigitsOfLarge(value: U64)
    requires value >= LARGEST
    ensures Log10(value) == 19
  {
    LargestIsPower();
    var top := Log10(value);
    if top < 19 { Pow10Gap(top, 19); }
    if top > 19 { Pow10Gap(19, top); }
  }

  lemma SmallBound(value: nat)
    requires value <= LARGEST
    ensures value <= Bound(value) <= LARGEST || (value == 0 && Bound(value) == 1)
  {
    if value > 0 {
      LargestIsPower();
      BoundIsLeastNice(value);
      NoNicerBound(value, LARGEST, 19);
    }
  }

  lemma LargeBound(value: U64)
    requires value > LARGEST
    ensures Bound(value) == 2 * LARGEST
  {
    LargestIsPower();
    DigitsOfLarge(value);
    BoundCases(value, LARGEST);
  }

  // Sixty-four bits hold the bound exactly when the value is at most 10^19; above
  // that the wrapped axis is lower than the value it should cover.
  lemma NiceAxisCoversIff(value: U64)
    ensures NiceAxisMax(value) >= value <==> value <= LARGEST
    ensures value <= LARGEST ==> NiceAxisMax(value) == Bound(value)
    ensures value > LARGEST ==> NiceAxisMax(value) == 2 * LARGEST - U64_SIZE
  {
    if value <= LARGEST {
      SmallBound(value);
      QuotientIs(Bound(value), U64_SIZE, 0);
    } else {
      LargeBound(value);
      QuotientIs(Bound(value), U64_SIZE, 1);
    }
  }

  // ---------------------------------------------------------------- stable axis

  function Max(a: nat, b: nat): nat {
    if a < b then b else a
  }

  function Highest(history: seq<U64>): (m: U64)
    ensures forall i :: 0 <= i < |history| ==> history[i] <= m
    ensures m == 0 || m in history
  {
    if history == [] then 0
    else
      var rest := Highest(history[..|history| - 1]);
      var last := history[|history| - 1];
      if rest < last then last else rest
  }

  function Observed(history: seq<U64>, minimum: U64): U64 {
    Max(Highest(history), minimum)
  }

  function SaturatingDouble(x: U64): U64 {
    if 2 * x < U64_SIZE then 2 * x else U64_SIZE - 1
  }

  function StableAxisMax(history: seq<U64>, previous: U64, minimum: U64): U64 {
    var target := NiceAxisMax(Observed(history, minimum));
    if previous < target then target
    else if SaturatingDouble(target) < previous then target
    else Max(previous, minimum)
  }

  // Whatever the previous axis was, the new one covers every sample, leaves at
  // most twice the headroom of the nice bound, and settles at once.
  lemma StableAxisCovers(history: seq<U64>, previous: U64, minimum: U64)
    requires Observed(history, minimum) <= LARGEST
    ensures var axis := StableAxisMax(history, previous, minimum);
            && (forall i :: 0 <= i < |history| ==> history[i] <= axis)
            && minimum <= axis
            && Bound(Observed(history, minimum)) <= axis <= 2 * Bound(Observed(history, minimum))
            && StableAxisMax(history, axis, minimum) == axis
  {
    NiceAxisCoversIff(Observed(history, minimum));
  }

  // An axis that still covers the samples with at most twice the needed room is
  // left alone: a new sample within it never moves the chart.
  lemma AxisMovesIff(history: seq<U64>, previous: U64, minimum: U64)
    requires Observed(history, minimum) <= LARGEST
    ensures var target := Bound(Observed(history, minimum));
            StableAxisMax(history, previous, minimum) == previous <==> target <= previous <= 2 * target
  {
    NiceAxisCoversIff(Observed(history, minimum));
  }

  // The axis after refreshing it over a run of windows.
  function AxisAfter(windows: seq<seq<U64>>, start: U64, minimum: U64): U64 {
    if windows == [] then start
    else StableAxisMax(windows[|windows| - 1], AxisAfter(windows[..|windows| - 1], start, minimum), minimum)
  }

  // Through a run of windows with the same nice bound the axis moves at most once,
  // on the first of them.
  lemma {:induction false} AxisIsSteady(windows: seq<seq<U64>>, start: U64, minimum: U64, bound: nat)
    requires windows != []
    requires forall i :: 0 <= i < |windows| ==> Observed(windows[i], minimum) <= LARGEST
    requires forall i :: 0 <= i < |windows| ==> Bound(Observed(windows[i], minimum)) == bound
    ensures AxisAfter(windows, start, minimum) == StableAxisMax(windows[0], start, minimum)
  {
    var n := |windows| - 1;
    NiceAxisCoversIff(Observed(windows[n], minimum));
    if n == 0 {
      assert AxisAfter(windows[..0], start, minimum) == start;
    } else {
      var before := windows[..n];
      AxisIsSteady(before, start, minimum, bound);
      StableAxisCovers(windows[0], start, minimum);
      NiceAxisCoversIff(Observed(windows[0], minimum));
    }
  }
}
