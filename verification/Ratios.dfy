/** Facts about quotients and weighted sums of reals. */
module Ratios {

  lemma Scaled(x: real, a: real)
    requires a > 0.0
    ensures x > 0.0 <==> x * a > 0.0
    ensures x == 0.0 <==> x * a == 0.0
  {
  }

  lemma QuotientBounds(total: real, n: real, lo: real, hi: real)
    requires n > 0.0 && lo * n <= total <= hi * n
    ensures lo <= total / n <= hi
  {
    var q := total / n;
    assert q * n == total;
    Scaled(q - lo, n);
    Scaled(hi - q, n);
    assert (q - lo) * n == q * n - lo * n;
    assert (hi - q) * n == hi * n - q * n;
  }

  lemma QuotientSign(x: real, n: real)
    requires n > 0.0 && x >= 0.0
    ensures x / n >= 0.0
  {
    var q := x / n;
    assert q * n == x;
    Scaled(q, n);
  }

  lemma QuotientLine(a: real, b: real, s: real, n: real)
    requires n > 0.0
    ensures (a * s + b * n) / n == a * (s / n) + b
  {
    var q := s / n;
    assert s == q * n;
    assert a * s + b * n == (a * q + b) * n;
  }

  lemma LineAdds(a: real, b: real, s: real, x: real, m: real)
    ensures (a * s + b * m) + (a * x + b) == a * (s + x) + b * (m + 1.0)
  {
  }

  lemma WeightInRange(p: real)
    requires p >= 1.0
    ensures 0.0 < 2.0 / (p + 1.0) <= 1.0
  {
    var d := p + 1.0;
    var k := 2.0 / d;
    assert k * d == 2.0;
    Scaled(k, d);
    Scaled(1.0 - k, d);
    assert (1.0 - k) * d == d - k * d;
  }

  lemma MixBounds(close: real, value: real, k: real, lo: real, hi: real)
    requires 0.0 <= k <= 1.0 && lo <= close <= hi && lo <= value <= hi
    ensures lo <= close * k + value * (1.0 - k) <= hi
  {
    Between(lo, close, value, k);
    Between(-hi, -close, -value, k);
    assert -close * k + -value * (1.0 - k) == -(close * k + value * (1.0 - k));
  }

  lemma Between(lo: real, x: real, y: real, k: real)
    requires 0.0 <= k <= 1.0 && lo <= x && lo <= y
    ensures lo <= x * k + y * (1.0 - k)
  {
    var m := 1.0 - k;
    assert lo * k + lo * m == lo * (k + m);
    assert (x - lo) * k == x * k - lo * k && (x - lo) * k >= 0.0;
    assert (y - lo) * m == y * m - lo * m && (y - lo) * m >= 0.0;
  }

  lemma MixAffine(a: real, b: real, close: real, value: real, k: real)
    ensures (a * close + b) * k + (a * value + b) * (1.0 - k) == a * (close * k + value * (1.0 - k)) + b
  {
    assert (a * close + b) * k == a * (close * k) + b * k;
    assert (a * value + b) * (1.0 - k) == a * (value * (1.0 - k)) + b * (1.0 - k);
    assert b * k + b * (1.0 - k) == b;
  }

  lemma WeightedSign(v: real, x: real, p: real)
    requires p >= 1.0 && v >= 0.0 && x >= 0.0
    ensures (v * (p - 1.0) + x) / p >= 0.0
  {
    assert v * (p - 1.0) >= 0.0;
    QuotientSign(v * (p - 1.0) + x, p);
  }

  lemma WeightedScale(a: real, v: real, x: real, p: real)
    requires p > 0.0
    ensures ((a * v + 0.0) * (p - 1.0) + (a * x + 0.0)) / p == a * ((v * (p - 1.0) + x) / p) + 0.0
  {
    var m := p - 1.0;
    assert (a * v) * m == a * (v * m);
    assert (a * v) * m + a * x == a * (v * m + x) + 0.0 * p;
    QuotientLine(a, 0.0, v * m + x, p);
  }

  lemma ShareOfTotal(gain: real, loss: real)
    requires gain > 0.0 && loss > 0.0
    ensures gain / loss > 0.0
    ensures (100.0 - 100.0 / (1.0 + gain / loss)) * (gain + loss) == 100.0 * gain
  {
    var q := gain / loss;
    assert q * loss == gain;
    Scaled(q, loss);
    var d := 1.0 + q;
    var h := 100.0 / d;
    assert h * d == 100.0;
    assert gain + loss == d * loss;
    assert h * (d * loss) == (h * d) * loss;
    assert (100.0 - h) * (d * loss) == 100.0 * (d * loss) - h * (d * loss);
  }

  lemma ShareUnique(r: real, s: real, total: real)
    requires total > 0.0 && r * total == s * total
    ensures r == s
  {
    Scaled(r - s, total);
    assert (r - s) * total == r * total - s * total;
  }

  lemma ShareInRange(r: real, gain: real, total: real)
    requires r * total == 100.0 * gain && 0.0 <= gain <= total && total > 0.0
    ensures 0.0 <= r <= 100.0
  {
    Scaled(r, total);
    Scaled(100.0 - r, total);
    assert (100.0 - r) * total == 100.0 * total - r * total;
  }

  lemma ShareScales(r: real, s: real, gain: real, loss: real, a: real)
    requires a > 0.0 && gain + loss > 0.0
    requires r * (gain + loss) == 100.0 * gain && s * (a * gain + a * loss) == 100.0 * (a * gain)
    ensures s == r
  {
    var total := gain + loss;
    assert a * gain + a * loss == a * total;
    Scaled(total, a);
    assert r * (a * total) == a * (r * total) == a * (100.0 * gain);
    ShareUnique(r, s, a * total);
  }

  lemma ShareMirror(r: real, s: real, gain: real, loss: real)
    requires gain + loss > 0.0
    requires r * (gain + loss) == 100.0 * gain && s * (loss + gain) == 100.0 * loss
    ensures s == 100.0 - r
  {
    var total := gain + loss;
    assert (100.0 - r) * total == 100.0 * total - r * total;
    assert (100.0 - r) * total == 100.0 * loss;
    ShareUnique(s, 100.0 - r, total);
  }
}
