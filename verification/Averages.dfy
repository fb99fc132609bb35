/** What the moving averages weigh, and what the index says of curves that only rise, only fall or stand still
    (features/indicators.py). */
module Averages {
  import opened Common
  import opened Ratios
  import opened Indicators

  function Pow(r: real, n: nat): real {
    if n == 0 then 1.0 else r * Pow(r, n - 1)
  }

  /** The sum of the values from index `from` up to n, each weighing r times its successor and the last one 1. */
  function Weighted(xs: seq<real>, r: real, from: nat, n: nat): real
    requires from <= n <= |xs|
    decreases n - from
  {
    if from == n then 0.0 else Pow(r, n - 1 - from) * xs[from] + Weighted(xs, r, from + 1, n)
  }

  lemma OneAged(r: real, power: real, x: real, rest: real, newest: real)
    ensures (r * power) * x + (r * rest + newest) == r * (power * x + rest) + newest
  {
    assert (r * power) * x == r * (power * x);
  }

  lemma OlderAged(xs: seq<real>, r: real, from: nat, n: nat)
    requires from < n < |xs| && Weighted(xs, r, from + 1, n + 1) == r * Weighted(xs, r, from + 1, n) + xs[n]
    ensures Weighted(xs, r, from, n + 1) == r * Weighted(xs, r, from, n) + xs[n]
  {
    OneAged(r, Pow(r, n - 1 - from), xs[from], Weighted(xs, r, from + 1, n), xs[n]);
  }

  lemma {:induction false} WeightedNext(xs: seq<real>, r: real, from: nat, n: nat)
    requires from <= n < |xs|
    ensures Weighted(xs, r, from, n + 1) == r * Weighted(xs, r, from, n) + xs[n]
    decreases n - from
  {
    if from == n {
      assert Weighted(xs, r, n + 1, n + 1) == 0.0 && Pow(r, 0) == 1.0;
    } else {
      WeightedNext(xs, r, from + 1, n);
      OlderAged(xs, r, from, n);
    }
  }

  lemma OneSmoothed(r: real, w: real, power: real, seed: real, sum: real, x: real)
    ensures r * (power * seed + w * sum) + w * x == (r * power) * seed + w * (r * sum + x)
  {
    assert r * (power * seed) == (r * power) * seed && r * (w * sum) == w * (r * sum);
  }

  /** A step that keeps r of the average and adds w of the value. */
  ghost predicate Blends(step: (real, real) -> real, r: real, w: real) {
    forall v, x :: step(v, x) == r * v + w * x
  }

  /** A seed worn down by every value after the first `from`, and those values weighed by w and their age. */
  function Blended(xs: seq<real>, seed: real, r: real, w: real, from: nat, n: nat): real
    requires from <= n <= |xs|
  {
    Pow(r, n - from) * seed + w * Weighted(xs, r, from, n)
  }

  lemma BlendedFirst(xs: seq<real>, seed: real, r: real, w: real, from: nat)
    requires from <= |xs|
    ensures Blended(xs, seed, r, w, from, from) == seed
  {
    assert Pow(r, 0) == 1.0 && Weighted(xs, r, from, from) == 0.0;
  }

  lemma BlendedNext(xs: seq<real>, seed: real, r: real, w: real, from: nat, n: nat)
    requires from <= n < |xs|
    ensures Blended(xs, seed, r, w, from, n + 1) == r * Blended(xs, seed, r, w, from, n) + w * xs[n]
  {
    WeightedNext(xs, r, from, n);
    assert Pow(r, n + 1 - from) == r * Pow(r, n - from);
    OneSmoothed(r, w, Pow(r, n - from), seed, Weighted(xs, r, from, n), xs[n]);
  }

  lemma {:induction false} SmoothedWeights(xs: seq<real>, seed: real, step: (real, real) -> real, r: real, w: real,
                                           from: nat, n: nat)
    requires from <= n <= |xs| && Blends(step, r, w)
    ensures Smoothed(xs, seed, step, from, n) == Blended(xs, seed, r, w, from, n)
    decreases n
  {
    if n == from {
      BlendedFirst(xs, seed, r, w, from);
    } else {
      SmoothedWeights(xs, seed, step, r, w, from, n - 1);
      BlendedNext(xs, seed, r, w, from, n - 1);
    }
  }

  // ---- Exponential moving average ----

  /** What a step of the exponential average keeps and what it adds. */
  lemma EmaShares(p: real)
    requires p > 0.0
    ensures 1.0 - 2.0 / (p + 1.0) == (p - 1.0) / (p + 1.0)
  {
    var d := p + 1.0;
    assert (2.0 / d) * d == 2.0 && ((p - 1.0) / d) * d == p - 1.0;
    assert (1.0 - 2.0 / d) * d == d - (2.0 / d) * d;
    ShareUnique(1.0 - 2.0 / d, (p - 1.0) / d, d);
  }

  lemma MixShares(p: real)
    requires p > 0.0
    ensures Blends(Mix(2.0 / (p + 1.0)), (p - 1.0) / (p + 1.0), 2.0 / (p + 1.0))
  {
    EmaShares(p);
    MixBlends(2.0 / (p + 1.0));
  }

  lemma MixBlends(k: real)
    ensures Blends(Mix(k), 1.0 - k, k)
  {
    forall v, x
      ensures Mix(k)(v, x) == (1.0 - k) * v + k * x
    {
      MixIs(k, v, x);
    }
  }

  lemma MixIs(k: real, v: real, x: real)
    ensures Mix(k)(v, x) == (1.0 - k) * v + k * x
  {
    assert Mix(k)(v, x) == x * k + v * (1.0 - k);
  }

  lemma EmaBlends(closes: seq<real>, period: nat, r: real, k: real)
    requires 0 < period <= |closes| && k == Smoothing(period) && Blends(Mix(k), r, k)
    ensures EmaOf(closes, period)
            == Some(Blended(closes, Mean(closes, period), r, k, period, |closes|))
  {
    SmoothedWeights(closes, Mean(closes, period), Mix(k), r, k, period, |closes|);
  }

  /** The exponential average: the mean of the first `period` closes, then every later close with weight 2 / (p + 1),
      all earlier weights shrinking by (p - 1) / (p + 1) with each. */
  lemma EmaWeights(closes: seq<real>, period: nat)
    requires 0 < period <= |closes|
    ensures var p := period as real;
            EmaOf(closes, period)
            == Some(Blended(closes, Sum(closes, period) / p, (p - 1.0) / (p + 1.0), 2.0 / (p + 1.0), period, |closes|))
  {
    var p := period as real;
    MixShares(p);
    assert Smoothing(period) == 2.0 / (p + 1.0) && Mean(closes, period) == Sum(closes, period) / p;
    EmaBlends(closes, period, (p - 1.0) / (p + 1.0), 2.0 / (p + 1.0));
  }

  lemma {:induction false} SmoothedPrefix(xs: seq<real>, seed: real, step: (real, real) -> real, from: nat, m: nat,
                                          n: nat)
    requires from <= n <= m <= |xs|
    ensures Smoothed(xs[..m], seed, step, from, n) == Smoothed(xs, seed, step, from, n)
    decreases n
  {
    if n > from {
      SmoothedPrefix(xs, seed, step, from, m, n - 1);
    }
  }

  lemma {:induction false} SumPrefix(xs: seq<real>, m: nat, n: nat)
    requires n <= m <= |xs|
    ensures Sum(xs[..m], n) == Sum(xs, n)
  {
    if n > 0 {
      SumPrefix(xs, m, n - 1);
    }
  }

  lemma TimesDenominator(p: real, x: real, v: real)
    requires p > 0.0
    ensures (p + 1.0) * (x * (2.0 / (p + 1.0)) + v * (1.0 - 2.0 / (p + 1.0))) == 2.0 * x + (p - 1.0) * v
  {
    var d := p + 1.0;
    var k := 2.0 / d;
    assert d * k == 2.0;
    assert d * (x * k) == x * (d * k) && d * (v * (1.0 - k)) == v * (d - d * k);
  }

  /** With one close more, p + 1 times the average is twice the close and p - 1 times the average before. */
  lemma EmaNext(closes: seq<real>, period: nat)
    requires 0 < period < |closes|
    ensures var p, before := period as real, closes[..|closes| - 1];
            && EmaOf(closes, period).Some? && EmaOf(before, period).Some?
            && (p + 1.0) * EmaOf(closes, period).value == 2.0 * Last(closes) + (p - 1.0) * EmaOf(before, period).value
  {
    var n := |closes| - 1;
    SmoothedPrefix(closes, Mean(closes, period), Mix(Smoothing(period)), period, n, n);
    SumPrefix(closes, n, period);
    TimesDenominator(period as real, closes[n], EmaOf(closes[..n], period).value);
  }

  // ---- Wilder's average ----

  lemma WilderShares(p: real)
    requires p > 0.0
    ensures Blends(Wilder(p), (p - 1.0) / p, 1.0 / p)
  {
    forall v, x
      ensures Wilder(p)(v, x) == (p - 1.0) / p * v + 1.0 / p * x
    {
      SharedOut(p, v, x);
    }
  }

  lemma SharedOut(p: real, v: real, x: real)
    requires p > 0.0
    ensures (v * (p - 1.0) + x) / p == (p - 1.0) / p * v + 1.0 / p * x
  {
    var a, b := (p - 1.0) / p, 1.0 / p;
    assert a * p == p - 1.0 && b * p == 1.0;
    assert (a * v + b * x) * p == (a * p) * v + (b * p) * x;
    assert ((v * (p - 1.0) + x) / p) * p == v * (p - 1.0) + x;
    ShareUnique((v * (p - 1.0) + x) / p, a * v + b * x, p);
  }

  /** Wilder's average: the mean of the first `period` values, then every later value with weight 1 / p, all earlier
      weights shrinking by (p - 1) / p with each. */
  lemma WilderWeights(xs: seq<real>, period: nat)
    requires 0 < period <= |xs|
    ensures var p := period as real;
            WilderOf(xs, period) == Blended(xs, Sum(xs, period) / p, (p - 1.0) / p, 1.0 / p, period, |xs|)
  {
    var p := period as real;
    WilderShares(p);
    SmoothedWeights(xs, Mean(xs, period), Wilder(p), (p - 1.0) / p, 1.0 / p, period, |xs|);
  }

  /** With one value more, p times the average is p - 1 times the average before and the value. */
  lemma WilderNext(xs: seq<real>, period: nat)
    requires 0 < period < |xs|
    ensures period as real * WilderOf(xs, period)
            == (period as real - 1.0) * WilderOf(xs[..|xs| - 1], period) + Last(xs)
  {
    var n, p := |xs| - 1, period as real;
    SmoothedPrefix(xs, Mean(xs, period), Wilder(p), period, n, n);
    SumPrefix(xs, n, period);
    var v := WilderOf(xs[..n], period);
    assert p * ((v * (p - 1.0) + xs[n]) / p) == v * (p - 1.0) + xs[n];
  }

  // ---- The index of one-sided curves ----

  lemma {:induction false} SumOfZeros(xs: seq<real>, n: nat)
    requires n <= |xs| && forall i :: 0 <= i < n ==> xs[i] == 0.0
    ensures Sum(xs, n) == 0.0
  {
    if n > 0 {
      SumOfZeros(xs, n - 1);
    }
  }

  lemma WilderOfZeros(xs: seq<real>, period: nat)
    requires 0 < period <= |xs| && forall i :: 0 <= i < |xs| ==> xs[i] == 0.0
    ensures WilderOf(xs, period) == 0.0
  {
    var p, zero := period as real, (x: real) => x == 0.0;
    SumOfZeros(xs, period);
    assert 0.0 / p == 0.0;
    SmoothedKeeps(xs, Mean(xs, period), Wilder(p), period, |xs|, zero);
  }

  lemma {:induction false} SumOfSome(xs: seq<real>, n: nat)
    requires 0 < n <= |xs| && NotNegative(xs) && xs[n - 1] > 0.0
    ensures Sum(xs, n) > 0.0
  {
    SumNotNegative(xs, n - 1);
  }

  /** A newest value above zero keeps the average above zero. */
  lemma WilderOfSome(xs: seq<real>, period: nat)
    requires 0 < period <= |xs| && NotNegative(xs) && Last(xs) > 0.0
    ensures WilderOf(xs, period) > 0.0
  {
    var p := period as real;
    if |xs| == period {
      SumOfSome(xs, period);
      Scaled(Sum(xs, period) / p, p);
    } else {
      WilderNext(xs, period);
      WilderNotNegative(xs[..|xs| - 1], period);
      var rest := (p - 1.0) * WilderOf(xs[..|xs| - 1], period);
      assert rest >= 0.0;
      Scaled(WilderOf(xs, period), p);
    }
  }

  ghost predicate Rising(closes: seq<real>) {
    forall i :: 0 <= i < |closes| - 1 ==> closes[i] <= closes[i + 1]
  }

  ghost predicate Falling(closes: seq<real>) {
    forall i :: 0 <= i < |closes| - 1 ==> closes[i] >= closes[i + 1]
  }

  lemma RsiIs(closes: seq<real>, period: nat)
    requires 0 < period < |closes|
    ensures WilderOf(Gains(closes), period) >= 0.0 && WilderOf(Losses(closes), period) >= 0.0
    ensures RsiOf(closes, period)
            == Some(Strength(WilderOf(Gains(closes), period), WilderOf(Losses(closes), period)))
  {
    WilderNotNegative(Gains(closes), period);
    WilderNotNegative(Losses(closes), period);
  }

  lemma OneSided(gain: real, loss: real, r: real)
    requires gain >= 0.0 && loss >= 0.0 && r == Strength(gain, loss)
    ensures loss == 0.0 ==> r == if gain > 0.0 then 100.0 else 50.0
    ensures gain == 0.0 && loss > 0.0 ==> r == 0.0
  {
  }

  lemma Lossless(closes: seq<real>, period: nat)
    requires 0 < period < |closes| && Rising(closes)
    ensures WilderOf(Losses(closes), period) == 0.0
  {
    WilderOfZeros(Losses(closes), period);
  }

  lemma SomeGain(closes: seq<real>, period: nat)
    requires 0 < period < |closes| && closes[|closes| - 2] < Last(closes)
    ensures WilderOf(Gains(closes), period) > 0.0
  {
    WilderOfSome(Gains(closes), period);
  }

  lemma SomeLoss(closes: seq<real>, period: nat)
    requires 0 < period < |closes| && closes[|closes| - 2] > Last(closes)
    ensures WilderOf(Losses(closes), period) > 0.0
  {
    WilderOfSome(Losses(closes), period);
  }

  lemma Gainless(closes: seq<real>, period: nat)
    requires 0 < period < |closes| && Falling(closes)
    ensures WilderOf(Gains(closes), period) == 0.0
  {
    WilderOfZeros(Gains(closes), period);
  }

  /** Closes that never fall and end with a rise have index 100. */
  lemma RsiOfRise(closes: seq<real>, period: nat)
    requires 0 < period < |closes| && Rising(closes) && closes[|closes| - 2] < Last(closes)
    ensures RsiOf(closes, period) == Some(100.0)
  {
    RsiIs(closes, period);
    Lossless(closes, period);
    SomeGain(closes, period);
    OneSided(WilderOf(Gains(closes), period), WilderOf(Losses(closes), period), RsiOf(closes, period).value);
  }

  /** Closes that never rise and end with a fall have index 0. */
  lemma RsiOfFall(closes: seq<real>, period: nat)
    requires 0 < period < |closes| && Falling(closes) && closes[|closes| - 2] > Last(closes)
    ensures RsiOf(closes, period) == Some(0.0)
  {
    RsiIs(closes, period);
    Gainless(closes, period);
    SomeLoss(closes, period);
    OneSided(WilderOf(Gains(closes), period), WilderOf(Losses(closes), period), RsiOf(closes, period).value);
  }

  /** Closes that never move have index 50. */
  lemma RsiOfStandstill(closes: seq<real>, period: nat)
    requires 0 < period < |closes| && Rising(closes) && Falling(closes)
    ensures RsiOf(closes, period) == Some(50.0)
  {
    RsiIs(closes, period);
    Lossless(closes, period);
    Gainless(closes, period);
  }
}
