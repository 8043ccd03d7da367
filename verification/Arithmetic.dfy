/** Exact arithmetic behind the float64 computations of the allocator: truncating
    conversion to int, ceiling, and how many slots of a width fit into a remaining width. */
module Arithmetic {

  function Min(a: int, b: int): int { if a <= b then a else b }

  function Max(a: int, b: int): int { if a <= b then b else a }

  /** Go's conversion `int(x)`: truncation toward zero. */
  function Truncate(x: real): (n: int)
    ensures 0.0 <= x ==> n as real <= x < (n + 1) as real
    ensures x <= 0.0 ==> (n - 1) as real < x <= n as real
  {
    if x < 0.0 then -((-x).Floor) else x.Floor
  }

  /** Go's `math.Ceil`. */
  function Ceiling(x: real): int { -((-x).Floor) }

  /** Go's `math.Round`: halves go away from zero. */
  function Round(x: real): (r: int)
    ensures -0.5 <= r as real - x <= 0.5
    ensures 0.0 <= x ==> -0.5 < r as real - x
    ensures x <= 0.0 ==> r as real - x < 0.5
  {
    if x < 0.0 then -((-x + 0.5).Floor) else (x + 0.5).Floor
  }

  lemma EuclideanRemainder(a: int, b: int)
    requires b != 0
    ensures 0 <= a - a / b * b < (if b < 0 then -b else b)
  {
    var q, rest := a / b, a % b;
    assert a == q * b + rest;
  }

  lemma NegatedRemainder(a: int, b: int, q: int)
    ensures a - (-q) * b == -(-a - q * b)
  {}

  /** Go's integer division, which truncates toward zero. */
  function TruncatedDiv(a: int, b: int): int
    requires b != 0
  {
    if a < 0 then -(-a / b) else a / b
  }

  lemma TruncatesTowardZero(a: int, b: int)
    requires b != 0
    ensures 0 <= a ==> 0 <= a - TruncatedDiv(a, b) * b < (if b < 0 then -b else b)
    ensures a <= 0 ==> (if b < 0 then b else -b) < a - TruncatedDiv(a, b) * b <= 0
  {
    var q := TruncatedDiv(a, b);
    if a < 0 {
      EuclideanRemainder(-a, b);
      NegatedRemainder(a, b, -q);
      assert -q == -a / b;
    } else {
      EuclideanRemainder(a, b);
    }
  }

  /** `int(r / w)`: how many slots of width `w` fit into a remaining width `r`. */
  function Slots(r: real, w: real): int
    requires w > 0.0
  {
    Truncate(r / w)
  }

  lemma ScaleLe(a: real, b: real, w: real)
    requires a <= b && 0.0 <= w
    ensures a * w <= b * w
  {}

  lemma ScaleLt(a: real, b: real, w: real)
    requires a < b && 0.0 < w
    ensures a * w < b * w
  {}

  lemma Quotient(r: real, w: real)
    requires w != 0.0
    ensures (r / w) * w == r
  {}

  lemma ScaledOrder(x: real, y: real, w: real)
    requires 0.0 < w
    ensures x * w <= y * w <==> x <= y
  {
    if x <= y {
      ScaleLe(x, y, w);
    } else {
      ScaleLt(y, x, w);
    }
  }

  /** Division by a positive width preserves and reflects the order. */
  lemma QuotientOrder(a: real, b: real, w: real)
    requires 0.0 < w
    ensures a <= b <==> a / w <= b / w
  {
    var x, y := a / w, b / w;
    Quotient(a, w);
    Quotient(b, w);
    ScaledOrder(x, y, w);
  }

  lemma CompareRatios(p: real, c: real, q: real, d: real)
    requires 0.0 < c && 0.0 < d
    ensures p / c > q / d <==> p * d > q * c
    ensures p / c == q / d <==> p * d == q * c
    ensures p / c >= q / d <==> p * d >= q * c
  {
    var x, y := p / c, q / d;
    Quotient(p, c);
    Quotient(q, d);
    var cd := c * d;
    assert p * d == x * cd && q * c == y * cd by { Regroup(x, c, d); Regroup(y, d, c); }
    ScaledOrder(x, y, cd);
    ScaledOrder(y, x, cd);
  }

  lemma Regroup(x: real, c: real, d: real)
    ensures x * c * d == x * (c * d)
  {}

  lemma QuotientTakeOne(r: real, w: real)
    requires 0.0 < w
    ensures (r - w) / w == r / w - 1.0 && w / w == 1.0
  {
    var x := r / w;
    Quotient(r, w);
    Distribute(x, -1.0, w);
    QuotientUnique(r - w, w, x - 1.0);
    QuotientUnique(w, w, 1.0);
  }

  lemma Distribute(x: real, y: real, w: real)
    ensures (x + y) * w == x * w + y * w
  {}

  lemma QuotientUnique(r: real, w: real, x: real)
    requires 0.0 < w && x * w == r
    ensures r / w == x
  {}

  lemma QuotientNonNegative(r: real, w: real)
    requires 0.0 <= r && 0.0 < w
    ensures 0.0 <= r / w
  {
    Quotient(r, w);
    var x := r / w;
    if x < 0.0 {
      ScaleLt(x, 0.0, w);
    }
  }

  /** Filling one slot leaves one slot less. */
  lemma SlotsTakeOne(r: real, w: real)
    requires 0.0 < w <= r
    ensures Slots(r, w) == Slots(r - w, w) + 1
  {
    QuotientTakeOne(r, w);
    QuotientNonNegative(r - w, w);
    FloorStep((r - w) / w);
  }

  lemma FloorStep(x: real)
    ensures (x + 1.0).Floor == x.Floor + 1
  {}

  lemma SlotsMonotone(r: real, r': real, w: real)
    requires 0.0 <= r <= r' && 0.0 < w
    ensures 0 <= Slots(r, w) <= Slots(r', w)
  {
    QuotientNonNegative(r, w);
    QuotientOrder(r, r', w);
  }

  lemma SlotsNone(r: real, w: real)
    requires 0.0 <= r && 0.0 < w
    ensures 0 <= Slots(r, w)
    ensures Slots(r, w) == 0 <==> r < w
  {
    QuotientNonNegative(r, w);
    QuotientTakeOne(r, w);
    QuotientOrder(w, r, w);
  }

  lemma MulLe(a: int, b: int, c: int)
    requires a <= b && 0 <= c
    ensures a * c <= b * c
  {}

  lemma DivTakeOne(a: int, h: int)
    requires 0 < h <= a
    ensures a / h == (a - h) / h + 1
  {
    var q, r := (a - h) / h, (a - h) % h;
    assert a == (q + 1) * h + r;
    DivUnique(a, h, q + 1, r);
  }

  lemma DivUnique(a: int, h: int, q: int, r: int)
    requires 0 < h && 0 <= r < h && a == q * h + r
    ensures a / h == q
  {
    var p, s := a / h, a % h;
    assert a == p * h + s;
    if p < q {
      MulLe(p + 1, q, h);
    } else if q < p {
      MulLe(q + 1, p, h);
    }
  }

  lemma DivMonotone(a: int, b: int, h: int)
    requires 0 <= a <= b && 0 < h
    ensures 0 <= a / h <= b / h
  {
    var p, q := a / h, b / h;
    if q < p {
      MulLe(q + 1, p, h);
    }
  }
}
