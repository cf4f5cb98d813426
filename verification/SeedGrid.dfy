/** The cadence of seeded checks: the whole multiples of the interval since the zero time. */
module SeedGrid {

  predicate OnGrid(t: int, d: nat)
    requires d > 0
  {
    t % d == 0
  }

  lemma GridStep(t: int, d: nat)
    requires d > 0 && OnGrid(t, d)
    ensures OnGrid(t + d, d)
  {
    assert t == d * (t / d);
    assert t + d == d * (t / d + 1);
    MultipleOnGrid(t / d + 1, d);
  }

  lemma MulBound(m: int, d: nat)
    ensures m >= 1 ==> d * m >= d
    ensures m <= -1 ==> d * m + d <= 0
  {
    if m >= 1 { assert d * (m - 1) >= 0; }
    if m <= -1 { assert d * (m + 1) <= 0; }
  }

  lemma MultipleOnGrid(k: int, d: nat)
    requires d > 0
    ensures OnGrid(d * k, d)
  {
    var q := d * k / d;
    assert d * (k - q) == d * k % d;
    MulBound(k - q, d);
  }

  /** Two multiples of d are at least d apart. */
  lemma GridGap(a: int, b: int, d: nat)
    requires d > 0 && OnGrid(a, d) && OnGrid(b, d) && a < b
    ensures a + d <= b
  {
    var m := b / d - a / d;
    assert d * m == b - a;
    MulBound(m, d);
  }

  function Truncate(t: int, d: nat): (r: int)
    requires d > 0
    ensures OnGrid(r, d) && r <= t < r + d
  {
    MultipleOnGrid(t / d, d);
    d * (t / d)
  }

  function SampleAtOrAfter(t: int, d: nat): (r: int)
    requires d > 0
    ensures OnGrid(r, d) && t <= r < t + d
  {
    var at := Truncate(t, d);
    if at < t then (GridStep(at, d); at + d) else at
  }

  lemma GridUnique(a: int, b: int, t: int, d: nat)
    requires d > 0 && OnGrid(a, d) && OnGrid(b, d) && t <= a < t + d && t <= b < t + d
    ensures a == b
  {
    if a < b { GridGap(a, b, d); }
    if b < a { GridGap(b, a, d); }
  }

  /** A check is at or after t exactly when it is at or after the first check at or after t. */
  lemma SampleBound(x: int, t: int, d: nat)
    requires d > 0 && OnGrid(x, d)
    ensures x >= t <==> x >= SampleAtOrAfter(t, d)
  {
    hide OnGrid, SampleAtOrAfter;
    var s := SampleAtOrAfter(t, d);
    if x < s { GridGap(x, s, d); }
  }

  lemma SampleMonotone(a: int, b: int, d: nat)
    requires d > 0 && a <= b
    ensures SampleAtOrAfter(a, d) <= SampleAtOrAfter(b, d)
  {
    SampleBound(SampleAtOrAfter(b, d), a, d);
  }

  function Left(t: int, to: int): nat { if t < to then to - t else 0 }

  /** The checks from t on and before to. */
  function SamplesFrom(t: int, to: int, d: nat): (s: seq<int>)
    requires d > 0 && OnGrid(t, d)
    ensures forall i :: 0 <= i < |s| ==> OnGrid(s[i], d) && t <= s[i] < to
    decreases Left(t, to)
  {
    if t >= to then [] else (GridStep(t, d); [t] + SamplesFrom(t + d, to, d))
  }

  function Samples(from: int, to: int, d: nat): (s: seq<int>)
    requires d > 0
    ensures forall i :: 0 <= i < |s| ==> OnGrid(s[i], d) && from <= s[i] < to
  {
    SamplesFrom(SampleAtOrAfter(from, d), to, d)
  }

  lemma {:induction false} SamplesFromSplit(t: int, mid: int, to: int, d: nat)
    requires d > 0 && OnGrid(t, d) && mid <= to && t <= SampleAtOrAfter(mid, d)
    ensures SamplesFrom(t, to, d) == SamplesFrom(t, mid, d) + Samples(mid, to, d)
    decreases Left(t, mid)
  {
    hide OnGrid, SampleAtOrAfter;
    var s := SampleAtOrAfter(mid, d);
    if t >= mid {
      GridUnique(t, s, mid, d);
    } else {
      GridGap(t, s, d);
      GridStep(t, d);
      SamplesFromSplit(t + d, mid, to, d);
    }
  }

  /** A stretch of checks is the checks of its two halves. */
  lemma SamplesSplit(from: int, mid: int, to: int, d: nat)
    requires d > 0 && from <= mid <= to
    ensures Samples(from, to, d) == Samples(from, mid, d) + Samples(mid, to, d)
  {
    SampleMonotone(from, mid, d);
    SamplesFromSplit(SampleAtOrAfter(from, d), mid, to, d);
  }

  lemma {:induction false} SamplesFromAt(t: int, to: int, d: nat, k: nat)
    requires d > 0 && OnGrid(t, d)
    ensures k < |SamplesFrom(t, to, d)| <==> t + k * d < to
    ensures k < |SamplesFrom(t, to, d)| ==> SamplesFrom(t, to, d)[k] == t + k * d
    decreases k
  {
    hide OnGrid;
    assert k * d >= 0;
    if k > 0 && t < to {
      GridStep(t, d);
      SamplesFromAt(t + d, to, d, k - 1);
      assert k * d == (k - 1) * d + d;
    }
  }

  /** The k-th check is k intervals after the first, and exists when that is still before the end. */
  lemma SamplesAt(from: int, to: int, d: nat, k: nat)
    requires d > 0
    ensures k < |Samples(from, to, d)| <==> SampleAtOrAfter(from, d) + k * d < to
    ensures k < |Samples(from, to, d)| ==> Samples(from, to, d)[k] == SampleAtOrAfter(from, d) + k * d
  {
    SamplesFromAt(SampleAtOrAfter(from, d), to, d, k);
  }

  lemma {:induction false} SamplesFromLast(t: int, to: int, d: nat)
    requires d > 0 && OnGrid(t, d) && t < to
    ensures SamplesFrom(t, to, d) != [] && SamplesFrom(t, to, d)[|SamplesFrom(t, to, d)| - 1] + d == SampleAtOrAfter(to, d)
    decreases Left(t, to)
  {
    hide OnGrid, SampleAtOrAfter;
    GridStep(t, d);
    if t + d < to {
      SamplesFromLast(t + d, to, d);
    } else {
      GridUnique(t + d, SampleAtOrAfter(to, d), to, d);
    }
  }

  /** The check after the last one before `to` is the first one at or after it. */
  lemma SamplesLast(from: int, to: int, d: nat)
    requires d > 0 && SampleAtOrAfter(from, d) < to
    ensures var s := Samples(from, to, d); s != [] && s[|s| - 1] + d == SampleAtOrAfter(to, d)
  {
    SamplesFromLast(SampleAtOrAfter(from, d), to, d);
  }

  /** Every check in the stretch is among them. */
  lemma {:induction false} SamplesComplete(from: int, to: int, d: nat, x: int)
    requires d > 0 && OnGrid(x, d) && from <= x < to
    ensures x in Samples(from, to, d)
  {
    SampleBound(x, from, d);
    SamplesFromComplete(SampleAtOrAfter(from, d), to, d, x);
  }

  lemma {:induction false} SamplesFromComplete(t: int, to: int, d: nat, x: int)
    requires d > 0 && OnGrid(t, d) && OnGrid(x, d) && t <= x < to
    ensures x in SamplesFrom(t, to, d)
    decreases Left(t, x)
  {
    hide OnGrid;
    if t < x {
      GridGap(t, x, d);
      GridStep(t, d);
      SamplesFromComplete(t + d, to, d, x);
    }
  }
}
