/** Moving average and relative strength over close prices, in exact arithmetic (features/indicators.py). */
module Indicators {
  import opened Common
  import opened Ratios

  function Sum(s: seq<real>, n: nat): real
    requires n <= |s|
  {
    if n == 0 then 0.0 else Sum(s, n - 1) + s[n - 1]
  }

  /** A recurrence over the values after the first `from`. */
  function Smoothed(xs: seq<real>, seed: real, step: (real, real) -> real, from: nat, n: nat): real
    requires from <= n <= |xs|
    decreases n
  {
    if n == from then seed else step(Smoothed(xs, seed, step, from, n - 1), xs[n - 1])
  }

  /** A map that commutes with each step commutes with the recurrence. */
  lemma {:induction false} SmoothedMapped(xs: seq<real>, ys: seq<real>, f: real -> real, seed: real,
                                          step: (real, real) -> real, from: nat, n: nat)
    requires from <= n <= |xs| == |ys| && forall i :: 0 <= i < |xs| ==> ys[i] == f(xs[i])
    requires forall v, x :: step(f(v), f(x)) == f(step(v, x))
    ensures Smoothed(ys, f(seed), step, from, n) == f(Smoothed(xs, seed, step, from, n))
    decreases n
  {
    if n > from {
      SmoothedMapped(xs, ys, f, seed, step, from, n - 1);
    }
  }

  /** Whatever the seed satisfies and each step keeps holds of the result. */
  lemma {:induction false} SmoothedKeeps(xs: seq<real>, seed: real, step: (real, real) -> real, from: nat, n: nat,
                                         p: real -> bool)
    requires from <= n <= |xs| && p(seed) && forall i :: 0 <= i < |xs| ==> p(xs[i])
    requires forall v, x :: p(v) && p(x) ==> p(step(v, x))
    ensures p(Smoothed(xs, seed, step, from, n))
    decreases n
  {
    if n > from {
      SmoothedKeeps(xs, seed, step, from, n - 1, p);
    }
  }

  function Mean(xs: seq<real>, period: nat): real
    requires 0 < period <= |xs|
  {
    Sum(xs, period) / (period as real)
  }

  function Map(xs: seq<real>, f: real -> real): (r: seq<real>)
    ensures |r| == |xs| && forall i {:trigger r[i]} :: 0 <= i < |r| ==> r[i] == f(xs[i])
  {
    seq(|xs|, i requires 0 <= i < |xs| => f(xs[i]))
  }

  /** A change of unit and zero. */
  function Line(a: real, b: real): real -> real {
    (x: real) => a * x + b
  }

  lemma {:induction false} SumLine(xs: seq<real>, ys: seq<real>, a: real, b: real, n: nat)
    requires n <= |xs| == |ys| && forall i :: 0 <= i < n ==> ys[i] == Line(a, b)(xs[i])
    ensures Sum(ys, n) == a * Sum(xs, n) + b * n as real
  {
    if n > 0 {
      SumLine(xs, ys, a, b, n - 1);
      LineAdds(a, b, Sum(xs, n - 1), xs[n - 1], (n - 1) as real);
    }
  }

  lemma LineIs(a: real, b: real, x: real)
    ensures Line(a, b)(x) == a * x + b
  {
  }

  lemma LineOfQuotient(a: real, b: real, s: real, n: real, total: real)
    requires n > 0.0 && total == a * s + b * n
    ensures total / n == Line(a, b)(s / n)
  {
    QuotientLine(a, b, s, n);
    LineIs(a, b, s / n);
  }

  lemma MeanLine(xs: seq<real>, a: real, b: real, period: nat)
    requires 0 < period <= |xs|
    ensures Mean(Map(xs, Line(a, b)), period) == Line(a, b)(Mean(xs, period))
  {
    SumLine(xs, Map(xs, Line(a, b)), a, b, period);
    LineOfQuotient(a, b, Sum(xs, period), period as real, Sum(Map(xs, Line(a, b)), period));
  }

  lemma {:induction false} SumBounds(s: seq<real>, n: nat, lo: real, hi: real)
    requires n <= |s| && forall i :: 0 <= i < n ==> lo <= s[i] <= hi
    ensures lo * n as real <= Sum(s, n) <= hi * n as real
  {
    if n > 0 {
      SumBounds(s, n - 1, lo, hi);
      assert n as real == (n - 1) as real + 1.0;
      BoundsNext(Sum(s, n - 1), s[n - 1], lo, hi, (n - 1) as real);
    }
  }

  lemma BoundsNext(sum: real, x: real, lo: real, hi: real, m: real)
    requires lo * m <= sum <= hi * m && lo <= x <= hi
    ensures lo * (m + 1.0) <= sum + x <= hi * (m + 1.0)
  {
    assert lo * (m + 1.0) == lo * m + lo && hi * (m + 1.0) == hi * m + hi;
  }

  // ---- Exponential moving average ----

  function Smoothing(period: nat): real {
    2.0 / (period as real + 1.0)
  }

  /** One smoothing step. */
  function Mix(k: real): (real, real) -> real {
    (value: real, close: real) => close * k + value * (1.0 - k)
  }

  function EmaOf(closes: seq<real>, period: int): Option<real> {
    if period <= 0 || |closes| < period then None
    else Some(Smoothed(closes, Mean(closes, period), Mix(Smoothing(period)), period, |closes|))
  }

  method Ema(closes: seq<real>, period: int) returns (r: Option<real>)
    ensures r == EmaOf(closes, period)
  {
    if period <= 0 || |closes| < period {
      return None;
    }
    var seed := Sum(closes, period) / (period as real);
    var k := 2.0 / (period as real + 1.0);
    var step := Mix(k);
    var value := seed;
    for n := period to |closes|
      invariant value == Smoothed(closes, seed, step, period, n)
    {
      value := step(value, closes[n]);
    }
    r := Some(value);
  }

  /** The average exists when there are enough closes, and never leaves their range. */
  lemma EmaInRange(closes: seq<real>, period: int, lo: real, hi: real)
    requires forall i :: 0 <= i < |closes| ==> lo <= closes[i] <= hi
    ensures EmaOf(closes, period).Some? <==> 0 < period <= |closes|
    ensures EmaOf(closes, period).Some? ==> lo <= EmaOf(closes, period).value <= hi
  {
    if 0 < period <= |closes| {
      var k := Smoothing(period);
      var p := (x: real) => lo <= x <= hi;
      SumBounds(closes, period, lo, hi);
      QuotientBounds(Sum(closes, period), period as real, lo, hi);
      WeightInRange(period as real);
      forall v, x | p(v) && p(x)
        ensures p(Mix(k)(v, x))
      {
        MixBounds(x, v, k, lo, hi);
      }
      SmoothedKeeps(closes, Mean(closes, period), Mix(k), period, |closes|, p);
    }
  }

  /** Averaging commutes with every change of unit and zero. */
  lemma EmaAffine(closes: seq<real>, period: int, a: real, b: real)
    ensures EmaOf(Map(closes, Line(a, b)), period)
            == if EmaOf(closes, period).None? then None else Some(a * EmaOf(closes, period).value + b)
  {
    if 0 < period <= |closes| {
      EmaMoved(closes, Map(closes, Line(a, b)), period, a, b);
      assert EmaOf(Map(closes, Line(a, b)), period) == Some(Line(a, b)(EmaOf(closes, period).value));
      LineIs(a, b, EmaOf(closes, period).value);
    }
  }

  lemma EmaMoved(closes: seq<real>, moved: seq<real>, period: nat, a: real, b: real)
    requires 0 < period <= |closes| && moved == Map(closes, Line(a, b))
    ensures EmaOf(closes, period).Some?
    ensures EmaOf(moved, period) == Some(Line(a, b)(EmaOf(closes, period).value))
  {
    MixLine(a, b, Smoothing(period));
    MeanLine(closes, a, b, period);
    SmoothedMapped(closes, moved, Line(a, b), Mean(closes, period), Mix(Smoothing(period)), period, |closes|);
  }

  lemma MixLine(a: real, b: real, k: real)
    ensures forall v, x :: Mix(k)(Line(a, b)(v), Line(a, b)(x)) == Line(a, b)(Mix(k)(v, x))
  {
    forall v, x
      ensures Mix(k)(Line(a, b)(v), Line(a, b)(x)) == Line(a, b)(Mix(k)(v, x))
    {
      MixAffine(a, b, x, v, k);
    }
  }

  // ---- Wilder's relative strength index ----

  function Gains(closes: seq<real>): (r: seq<real>)
    requires closes != []
    ensures |r| == |closes| - 1 && forall i {:trigger r[i]} :: 0 <= i < |r| ==>
              r[i] == PositivePart(closes[i + 1] - closes[i])
  {
    seq(|closes| - 1, i requires 0 <= i < |closes| - 1 => PositivePart(closes[i + 1] - closes[i]))
  }

  function Losses(closes: seq<real>): (r: seq<real>)
    requires closes != []
    ensures |r| == |closes| - 1 && forall i {:trigger r[i]} :: 0 <= i < |r| ==>
              r[i] == PositivePart(closes[i] - closes[i + 1])
  {
    seq(|closes| - 1, i requires 0 <= i < |closes| - 1 => PositivePart(closes[i] - closes[i + 1]))
  }

  /** One step of Wilder's running average. */
  function Wilder(p: real): (real, real) -> real
    requires p > 0.0
  {
    (average: real, x: real) => (average * (p - 1.0) + x) / p
  }

  /** The running average of all values, seeded with the mean of the first `period`. */
  function WilderOf(xs: seq<real>, period: nat): real
    requires 0 < period <= |xs|
  {
    Smoothed(xs, Mean(xs, period), Wilder(period as real), period, |xs|)
  }

  predicate NotNegative(xs: seq<real>) {
    forall i :: 0 <= i < |xs| ==> xs[i] >= 0.0
  }

  lemma {:induction false} SumNotNegative(xs: seq<real>, n: nat)
    requires n <= |xs| && NotNegative(xs)
    ensures Sum(xs, n) >= 0.0
  {
    if n > 0 {
      SumNotNegative(xs, n - 1);
    }
  }

  lemma WilderNotNegative(xs: seq<real>, period: nat)
    requires 0 < period <= |xs| && NotNegative(xs)
    ensures WilderOf(xs, period) >= 0.0
  {
    var p := period as real;
    var sign := (x: real) => x >= 0.0;
    SumNotNegative(xs, period);
    QuotientSign(Sum(xs, period), p);
    forall v, x | sign(v) && sign(x)
      ensures sign(Wilder(p)(v, x))
    {
      WeightedSign(v, x, p);
    }
    SmoothedKeeps(xs, Mean(xs, period), Wilder(p), period, |xs|, sign);
  }

  function Strength(gain: real, loss: real): real
    requires gain >= 0.0 && loss >= 0.0
  {
    if gain == 0.0 && loss == 0.0 then 50.0
    else if loss == 0.0 then 100.0
    else if gain == 0.0 then 0.0
    else
      QuotientSign(gain, loss);
      100.0 - 100.0 / (1.0 + gain / loss)
  }

  /** The running average as a function of the values alone. */
  function Average(period: nat): seq<real> -> real {
    (xs: seq<real>) => if 0 < period <= |xs| then WilderOf(xs, period) else 0.0
  }

  function Combined(): (real, real) -> real {
    (gain: real, loss: real) => if gain >= 0.0 && loss >= 0.0 then Strength(gain, loss) else 0.0
  }

  /** An index over closes, given how gains and losses are averaged and how the averages are combined. */
  function IndexBy(average: seq<real> -> real, combine: (real, real) -> real, closes: seq<real>,
                   period: int): Option<real> {
    if period <= 0 || |closes| < period + 1 then None
    else Some(combine(average(Gains(closes)), average(Losses(closes))))
  }

  function RsiOf(closes: seq<real>, period: int): Option<real> {
    if period <= 0 then None else IndexBy(Average(period), Combined(), closes, period)
  }

  method RsiWilder(closes: seq<real>, period: int) returns (r: Option<real>)
    ensures r == RsiOf(closes, period)
  {
    if period <= 0 || |closes| < period + 1 {
      return None;
    }
    var avgGain, avgLoss := BothAverages(closes, period);
    var index := StrengthOf(avgGain, avgLoss);
    r := Some(index);
  }

  method BothAverages(closes: seq<real>, period: nat) returns (avgGain: real, avgLoss: real)
    requires 0 < period < |closes|
    ensures avgGain == Average(period)(Gains(closes)) >= 0.0 && avgLoss == Average(period)(Losses(closes)) >= 0.0
  {
    WilderNotNegative(Gains(closes), period);
    WilderNotNegative(Losses(closes), period);
    avgGain, avgLoss := Averages(Gains(closes), Losses(closes), period);
  }

  method Averages(gains: seq<real>, losses: seq<real>, period: nat) returns (avgGain: real, avgLoss: real)
    requires 0 < period <= |gains| == |losses|
    ensures avgGain == WilderOf(gains, period) && avgLoss == WilderOf(losses, period)
  {
    var p := period as real;
    var step := Wilder(p);
    avgGain := Sum(gains, period) / p;
    avgLoss := Sum(losses, period) / p;
    for n := period to |gains|
      invariant avgGain == Smoothed(gains, Mean(gains, period), step, period, n)
      invariant avgLoss == Smoothed(losses, Mean(losses, period), step, period, n)
    {
      avgGain := step(avgGain, gains[n]);
      avgLoss := step(avgLoss, losses[n]);
    }
  }

  method StrengthOf(avgGain: real, avgLoss: real) returns (r: real)
    requires avgGain >= 0.0 && avgLoss >= 0.0
    ensures r == Strength(avgGain, avgLoss)
  {
    if avgGain == 0.0 && avgLoss == 0.0 {
      return 50.0;
    }
    if avgLoss == 0.0 {
      return 100.0;
    }
    if avgGain == 0.0 {
      return 0.0;
    }
    QuotientSign(avgGain, avgLoss);
    var relative := avgGain / avgLoss;
    r := 100.0 - 100.0 / (1.0 + relative);
  }

  /** Unless nothing moved, the index is the gains' share of all movement, in percent. */
  lemma StrengthIsShare(gain: real, loss: real)
    requires gain >= 0.0 && loss >= 0.0 && gain + loss > 0.0
    ensures Strength(gain, loss) * (gain + loss) == 100.0 * gain
  {
    if gain > 0.0 && loss > 0.0 {
      ShareOfTotal(gain, loss);
    }
  }

  lemma StrengthInRange(gain: real, loss: real)
    requires gain >= 0.0 && loss >= 0.0
    ensures 0.0 <= Strength(gain, loss) <= 100.0
  {
    if gain + loss > 0.0 {
      StrengthIsShare(gain, loss);
      ShareInRange(Strength(gain, loss), gain, gain + loss);
    }
  }

  lemma StrengthScale(gain: real, loss: real, a: real)
    requires gain >= 0.0 && loss >= 0.0 && a > 0.0
    ensures a * gain >= 0.0 && a * loss >= 0.0 && Strength(a * gain, a * loss) == Strength(gain, loss)
  {
    Scaled(gain, a);
    Scaled(loss, a);
    if gain + loss > 0.0 {
      StrengthIsShare(gain, loss);
      StrengthIsShare(a * gain, a * loss);
      ShareScales(Strength(gain, loss), Strength(a * gain, a * loss), gain, loss, a);
    }
  }

  lemma StrengthMirror(gain: real, loss: real)
    requires gain >= 0.0 && loss >= 0.0
    ensures Strength(loss, gain) == 100.0 - Strength(gain, loss)
  {
    if gain + loss > 0.0 {
      StrengthIsShare(gain, loss);
      StrengthIsShare(loss, gain);
      ShareMirror(Strength(gain, loss), Strength(loss, gain), gain, loss);
    }
  }

  lemma WilderPoint(a: real, v: real, x: real, p: real)
    requires p > 0.0
    ensures Wilder(p)(Line(a, 0.0)(v), Line(a, 0.0)(x)) == Line(a, 0.0)(Wilder(p)(v, x))
  {
    WeightedScale(a, v, x, p);
  }

  lemma WilderLine(a: real, p: real)
    requires p > 0.0
    ensures forall v, x :: Wilder(p)(Line(a, 0.0)(v), Line(a, 0.0)(x)) == Line(a, 0.0)(Wilder(p)(v, x))
  {
    forall v, x
      ensures Wilder(p)(Line(a, 0.0)(v), Line(a, 0.0)(x)) == Line(a, 0.0)(Wilder(p)(v, x))
    {
      WilderPoint(a, v, x, p);
    }
  }

  lemma WilderScale(xs: seq<real>, a: real, period: nat)
    requires 0 < period <= |xs|
    ensures WilderOf(Map(xs, Line(a, 0.0)), period) == Line(a, 0.0)(WilderOf(xs, period))
  {
    var f, p := Line(a, 0.0), period as real;
    WilderLine(a, p);
    MeanLine(xs, a, 0.0, period);
    SmoothedMapped(xs, Map(xs, f), f, Mean(xs, period), Wilder(p), period, |xs|);
  }

  /** What one price step becomes when prices are rescaled. */
  lemma MoveScales(x: real, y: real, a: real, b: real)
    requires a > 0.0
    ensures PositivePart(Line(a, b)(x) - Line(a, b)(y)) == Line(a, 0.0)(PositivePart(x - y))
  {
    Scaled(x - y, a);
    assert (a * x + b) - (a * y + b) == (x - y) * a;
  }

  lemma AffineMoves(closes: seq<real>, a: real, b: real)
    requires a > 0.0 && closes != []
    ensures Gains(Map(closes, Line(a, b))) == Map(Gains(closes), Line(a, 0.0))
    ensures Losses(Map(closes, Line(a, b))) == Map(Losses(closes), Line(a, 0.0))
  {
    MovesMapped(closes, Map(closes, Line(a, b)), Line(a, b), Line(a, 0.0)) by {
      forall x, y
        ensures PositivePart(Line(a, b)(x) - Line(a, b)(y)) == Line(a, 0.0)(PositivePart(x - y))
      {
        MoveScales(x, y, a, b);
      }
    }
  }

  lemma MoveMapped(closes: seq<real>, moved: seq<real>, f: real -> real, g: real -> real, i: nat)
    requires i + 1 < |closes| == |moved| && moved[i] == f(closes[i]) && moved[i + 1] == f(closes[i + 1])
    requires forall x, y :: PositivePart(f(x) - f(y)) == g(PositivePart(x - y))
    ensures PositivePart(moved[i + 1] - moved[i]) == g(PositivePart(closes[i + 1] - closes[i]))
    ensures PositivePart(moved[i] - moved[i + 1]) == g(PositivePart(closes[i] - closes[i + 1]))
  {
    assert PositivePart(f(closes[i + 1]) - f(closes[i])) == g(PositivePart(closes[i + 1] - closes[i]));
    assert PositivePart(f(closes[i]) - f(closes[i + 1])) == g(PositivePart(closes[i] - closes[i + 1]));
  }

  lemma PointByPoint(xs: seq<real>, ys: seq<real>, g: real -> real)
    requires |ys| == |xs| && forall i :: 0 <= i < |xs| ==> ys[i] == g(xs[i])
    ensures ys == Map(xs, g)
  {
  }

  lemma MovesMapped(closes: seq<real>, moved: seq<real>, f: real -> real, g: real -> real)
    requires closes != [] && forall x, y :: PositivePart(f(x) - f(y)) == g(PositivePart(x - y))
    requires |moved| == |closes| && forall i :: 0 <= i < |closes| ==> moved[i] == f(closes[i])
    ensures Gains(moved) == Map(Gains(closes), g)
    ensures Losses(moved) == Map(Losses(closes), g)
  {
    forall i | 0 <= i < |closes| - 1
      ensures Gains(moved)[i] == g(Gains(closes)[i]) && Losses(moved)[i] == g(Losses(closes)[i])
    {
      MoveMapped(closes, moved, f, g, i);
    }
    PointByPoint(Gains(closes), Gains(moved), g);
    PointByPoint(Losses(closes), Losses(moved), g);
  }

  /** An average that follows a change of unit, and a combination that ignores it. */
  ghost predicate Scales(average: seq<real> -> real, combine: (real, real) -> real, period: nat, a: real) {
    && (forall xs {:trigger Map(xs, Line(a, 0.0))} ::
          |xs| >= period ==> average(Map(xs, Line(a, 0.0))) == Line(a, 0.0)(average(xs)))
    && (forall xs :: NotNegative(xs) ==> average(xs) >= 0.0)
    && forall g, l {:trigger combine(Line(a, 0.0)(g), Line(a, 0.0)(l))} ::
         g >= 0.0 && l >= 0.0 ==> combine(Line(a, 0.0)(g), Line(a, 0.0)(l)) == combine(g, l)
  }

  lemma AveragesCombine(average: seq<real> -> real, combine: (real, real) -> real, f: real -> real, gains: seq<real>,
                        losses: seq<real>)
    requires average(Map(gains, f)) == f(average(gains)) && average(Map(losses, f)) == f(average(losses))
    requires combine(f(average(gains)), f(average(losses))) == combine(average(gains), average(losses))
    ensures combine(average(Map(gains, f)), average(Map(losses, f))) == combine(average(gains), average(losses))
  {
  }

  lemma IndexScales(average: seq<real> -> real, combine: (real, real) -> real, closes: seq<real>, moved: seq<real>,
                    period: nat, a: real)
    requires Scales(average, combine, period, a) && 0 < period < |closes| == |moved|
    requires Gains(moved) == Map(Gains(closes), Line(a, 0.0)) && Losses(moved) == Map(Losses(closes), Line(a, 0.0))
    ensures IndexBy(average, combine, moved, period) == IndexBy(average, combine, closes, period)
  {
    assert NotNegative(Gains(closes)) && NotNegative(Losses(closes));
    AveragesCombine(average, combine, Line(a, 0.0), Gains(closes), Losses(closes));
  }

  lemma AverageNotNegative(period: nat, xs: seq<real>)
    requires NotNegative(xs)
    ensures Average(period)(xs) >= 0.0
  {
    if 0 < period <= |xs| {
      WilderNotNegative(xs, period);
    }
  }

  lemma CombinedScales(a: real, g: real, l: real)
    requires a > 0.0 && g >= 0.0 && l >= 0.0
    ensures Combined()(Line(a, 0.0)(g), Line(a, 0.0)(l)) == Combined()(g, l)
  {
    LineIs(a, 0.0, g);
    LineIs(a, 0.0, l);
    StrengthScale(g, l, a);
  }

  lemma WilderScales(period: nat, a: real)
    requires period > 0 && a > 0.0
    ensures Scales(Average(period), Combined(), period, a)
  {
    forall xs: seq<real> | |xs| >= period
      ensures Average(period)(Map(xs, Line(a, 0.0))) == Line(a, 0.0)(Average(period)(xs))
    {
      WilderScale(xs, a, period);
    }
    forall xs | NotNegative(xs)
      ensures Average(period)(xs) >= 0.0
    {
      AverageNotNegative(period, xs);
    }
    forall g, l | g >= 0.0 && l >= 0.0
      ensures Combined()(Line(a, 0.0)(g), Line(a, 0.0)(l)) == Combined()(g, l)
    {
      CombinedScales(a, g, l);
    }
  }

  /** Units and zero of the price do not matter. */
  lemma RsiAffine(closes: seq<real>, period: int, a: real, b: real)
    requires a > 0.0
    ensures RsiOf(Map(closes, Line(a, b)), period) == RsiOf(closes, period)
  {
    if 0 < period < |closes| {
      WilderScales(period, a);
      AffineMoves(closes, a, b);
      IndexScales(Average(period), Combined(), closes, Map(closes, Line(a, b)), period, a);
    }
  }

  lemma MirrorMoves(closes: seq<real>, moved: seq<real>, level: real)
    requires closes != [] && |moved| == |closes| && forall i :: 0 <= i < |closes| ==> moved[i] == level - closes[i]
    ensures Gains(moved) == Losses(closes) && Losses(moved) == Gains(closes)
  {
    forall i | 0 <= i < |closes| - 1
      ensures Gains(moved)[i] == Losses(closes)[i] && Losses(moved)[i] == Gains(closes)[i]
    {
      assert moved[i + 1] - moved[i] == closes[i] - closes[i + 1];
    }
  }

  function Mirrored(closes: seq<real>, level: real): seq<real> {
    Map(closes, (x: real) => level - x)
  }

  /** Averages of non-negative values, combined so that swapping them reflects the index. */
  ghost predicate Reflects(average: seq<real> -> real, combine: (real, real) -> real) {
    && (forall xs :: NotNegative(xs) ==> average(xs) >= 0.0)
    && forall g, l :: g >= 0.0 && l >= 0.0 ==> combine(l, g) == 100.0 - combine(g, l) && 0.0 <= combine(g, l) <= 100.0
  }

  lemma WilderReflects(period: nat)
    ensures Reflects(Average(period), Combined())
  {
    forall xs | NotNegative(xs)
      ensures Average(period)(xs) >= 0.0
    {
      AverageNotNegative(period, xs);
    }
    forall g, l | g >= 0.0 && l >= 0.0
      ensures Combined()(l, g) == 100.0 - Combined()(g, l) && 0.0 <= Combined()(g, l) <= 100.0
    {
      StrengthMirror(g, l);
      StrengthInRange(g, l);
    }
  }

  lemma IndexReflects(average: seq<real> -> real, combine: (real, real) -> real, closes: seq<real>, period: nat,
                      level: real)
    requires Reflects(average, combine) && 0 < period < |closes|
    ensures IndexBy(average, combine, closes, period).Some?
    ensures var r := IndexBy(average, combine, closes, period).value;
            && 0.0 <= r <= 100.0
            && IndexBy(average, combine, Mirrored(closes, level), period) == Some(100.0 - r)
  {
    MirrorMoves(closes, Mirrored(closes, level), level);
    assert average(Gains(closes)) >= 0.0 && average(Losses(closes)) >= 0.0;
  }

  lemma RsiNone(closes: seq<real>, period: int)
    ensures RsiOf(closes, period).None? <==> !(0 < period < |closes|)
  {
  }

  lemma RsiReflects(closes: seq<real>, period: int, level: real) returns (r: real)
    ensures RsiOf(closes, period) == if 0 < period < |closes| then Some(r) else None
    ensures RsiOf(Mirrored(closes, level), period) == if 0 < period < |closes| then Some(100.0 - r) else None
    ensures 0.0 <= r <= 100.0
  {
    r := 0.0;
    RsiNone(closes, period);
    RsiNone(Mirrored(closes, level), period);
    if 0 < period < |closes| {
      WilderReflects(period);
      IndexReflects(Average(period), Combined(), closes, period, level);
      r := IndexBy(Average(period), Combined(), closes, period).value;
    }
  }

  lemma ReflectedValue(a: Option<real>, b: Option<real>, some: bool, r: real)
    requires a == (if some then Some(r) else None) && b == if some then Some(100.0 - r) else None
    ensures b == if a.None? then None else Some(100.0 - a.value)
  {
  }

  /** Turning the price curve upside down about any level turns the index r into 100 - r. */
  lemma RsiMirror(closes: seq<real>, period: int, level: real)
    ensures RsiOf(Mirrored(closes, level), period)
            == if RsiOf(closes, period).None? then None else Some(100.0 - RsiOf(closes, period).value)
  {
    var r := RsiReflects(closes, period, level);
    ReflectedValue(RsiOf(closes, period), RsiOf(Mirrored(closes, level), period), 0 < period < |closes|, r);
  }

  lemma RsiInRange(closes: seq<real>, period: int)
    ensures RsiOf(closes, period).Some? <==> 0 < period < |closes|
    ensures RsiOf(closes, period).Some? ==> 0.0 <= RsiOf(closes, period).value <= 100.0
  {
    var r := RsiReflects(closes, period, 0.0);
  }
}
