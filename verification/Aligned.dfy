/** Rounding times down to multiples of a width. */
module Aligned {

  function FloorTo(t: int, width: int): int
    requires width > 0
  {
    (t / width) * width
  }

  lemma ProductMonotone(a: int, b: int, width: int)
    requires width > 0
    ensures a <= b ==> a * width <= b * width
  {
    if a <= b {
      assert (b - a) * width >= 0;
      assert b * width == a * width + (b - a) * width;
    }
  }

  lemma QuotientUnique(t: int, width: int, q: int)
    requires width > 0 && q * width <= t < q * width + width
    ensures t / width == q
  {
    var p := t / width;
    assert t == p * width + t % width;
    ProductMonotone(p + 1, q, width);
    ProductMonotone(q + 1, p, width);
    assert (p + 1) * width == p * width + width;
    assert (q + 1) * width == q * width + width;
  }

  /** The multiple of the width whose interval holds t, and the only one. */
  lemma FloorMeaning(t: int, width: int, start: int)
    requires width > 0
    ensures FloorTo(t, width) == start <==> start % width == 0 && start <= t < start + width
  {
    var q := t / width;
    assert t == q * width + t % width;
    FloorIsMultiple(q, width);
    if start % width == 0 && start <= t < start + width {
      assert start == (start / width) * width;
      QuotientUnique(t, width, start / width);
    }
  }

  lemma FloorIsMultiple(q: int, width: int)
    requires width > 0
    ensures (q * width) % width == 0
  {
    var t := q * width;
    QuotientUnique(t, width, q);
    assert t == (t / width) * width + t % width;
  }

  lemma AlignedGap(a: int, b: int, width: int)
    requires width > 0 && a % width == 0 && b % width == 0 && a < b
    ensures a + width <= b
  {
    var p, q := a / width, b / width;
    assert a == p * width && b == q * width;
    ProductMonotone(q, p, width);
    ProductMonotone(p + 1, q, width);
    assert (p + 1) * width == p * width + width;
  }

  /** Being rounded below another rounded time is being before it. */
  lemma FloorOrder(t: int, u: int, width: int)
    requires width > 0
    ensures FloorTo(t, width) < FloorTo(u, width) <==> t < FloorTo(u, width)
  {
    FloorMeaning(t, width, FloorTo(t, width));
    FloorMeaning(u, width, FloorTo(u, width));
    if FloorTo(t, width) < FloorTo(u, width) {
      AlignedGap(FloorTo(t, width), FloorTo(u, width), width);
    }
  }
}
