/** Small arithmetic facts used by the cost bounds. */
module RealArith {
  lemma NonNegativeProduct(x: real, y: real)
    requires x >= 0.0 && y >= 0.0
    ensures x * y >= 0.0
  {
  }

  lemma DivideMonotone(a: real, b: real, d: real)
    requires d > 0.0
    requires a <= b
    ensures a / d <= b / d
  {
    assert b / d - a / d == (b - a) / d;
  }

  lemma ScaleMonotone(p: real, a: real, b: real)
    requires p >= 0.0 && a <= b
    ensures p * a <= p * b
  {
    var diff := b - a;
    NonNegativeProduct(p, diff);
    assert p * b - p * a == p * diff;
  }

  lemma Cancel(x: real, d: real)
    requires d != 0.0
    ensures x * d / d == x
  {
  }

  lemma CyclesBound(c: real, n: real, u: real)
    requires n > 0.0 && (c - 1.0) * n < u
    ensures c <= u / n + 1.0
  {
    var extra := c - 1.0;
    var spanned := extra * n;
    DivideMonotone(spanned, u, n);
    Cancel(extra, n);
  }

  lemma SplitSpread(p: real, n: real, u: real)
    requires n > 0.0 && u > 0.0
    ensures p * (u / n + 1.0) / u == p / n + p / u
  {
    var perCycle := p / n;
    var w := perCycle * u;
    assert p * (u / n + 1.0) == w + p;
    assert (w + p) / u == w / u + p / u;
    Cancel(perCycle, u);
  }
  /** The cost per usage day of `c` cycles of price `p` lies between `p / u` and `p / u + p / n`. */
  lemma SpreadBounds(p: real, c: real, n: real, u: real)
    requires p >= 0.0 && n > 0.0 && u > 0.0 && c >= 1.0
    requires (c - 1.0) * n < u
    ensures p / u <= p * c / u <= p / u + p / n
  {
    ScaleMonotone(p, 1.0, c);
    DivideMonotone(p, p * c, u);
    CyclesBound(c, n, u);
    var most := u / n + 1.0;
    ScaleMonotone(p, c, most);
    DivideMonotone(p * c, p * most, u);
    SplitSpread(p, n, u);
  }

  /** A product with a positive factor is positive only if the other factor is. */
  lemma PositiveFactor(c: int, n: int)
    requires n > 0 && c * n > 0
    ensures c > 0
  {
  }

  /** A positive amount charged at least once and spread over positive days stays positive. */
  lemma PositiveSpread(p: real, c: real, u: real)
    requires p > 0.0 && c >= 1.0 && u > 0.0
    ensures p * c / u > 0.0
  {
    ScaleMonotone(p, 1.0, c);
    var total := p * c;
    assert total > 0.0;
  }

  /** The same bounds for a cost known to be `p * c / u`. */
  lemma SpreadBoundsOf(p: real, c: real, n: real, u: real, cost: real)
    requires p >= 0.0 && n > 0.0 && u > 0.0 && c >= 1.0
    requires (c - 1.0) * n < u
    requires cost == p * c / u
    ensures p / u <= cost <= p / u + p / n
  {
    SpreadBounds(p, c, n, u);
  }

  /** A whole number of cycles of `n` days covering `u >= 1` days, read as reals. */
  lemma CyclesAsReals(c: int, n: int, u: int)
    requires n > 0 && u >= 1
    requires (c - 1) * n < u <= c * n
    ensures c >= 1
    ensures (c as real - 1.0) * n as real < u as real
  {
    PositiveFactor(c, n);
    assert (c as real - 1.0) * n as real == ((c - 1) * n) as real;
  }
}
