/** Eight-decimal fixed point. A stored quantity, price or USD amount is an `int` that counts
    units of 1e-8; a product or a ratio before it is rounded is an exact `real` in the same unit. */
module FixedPoint {
  const SCALE: real := 100000000.0

  /** `Number(x.toFixed(8))`, in units: the nearest whole unit, halves away from zero. */
  function Round(x: real): (r: int)
    ensures -0.5 <= r as real - x <= 0.5
    ensures x >= 0.5 ==> r >= 1
    ensures x >= 0.0 ==> r >= 0
  {
    if x >= 0.0 then (x + 0.5).Floor else -((0.5 - x).Floor)
  }

  /** USD value of `qty` at `price`, exact, in units. */
  function Value(qty: int, price: int): real {
    (qty * price) as real / SCALE
  }

  function Abs(x: int): (r: int)
    ensures r >= 0
  {
    if x < 0 then -x else x
  }

  function Max(a: int, b: int): int {
    if a < b then b else a
  }

  function Min(a: int, b: int): int {
    if a < b then a else b
  }

  function Sign(x: int): int {
    if x > 0 then 1 else if x < 0 then -1 else 0
  }

  /** Rounding is the nearest unit: nothing on the grid is nearer, so it fixes the grid ... */
  lemma RoundFixesUnits(n: int)
    ensures Round(n as real) == n
  {
  }

  /** ... and it never reverses an order. */
  lemma RoundMonotone(x: real, y: real)
    requires x <= y
    ensures Round(x) <= Round(y)
  {
    if x < 0.0 <= y {
      assert Round(x) <= 0 <= Round(y);
    }
  }

  lemma ValueAdds(a: int, b: int, price: int)
    ensures Value(a + b, price) == Value(a, price) + Value(b, price)
  {
    assert (a + b) * price == a * price + b * price;
  }

  lemma ValueSplits(qty: int, p: int, q: int)
    ensures Value(qty, p - q) == Value(qty, p) - Value(qty, q)
  {
    assert qty * (p - q) == qty * p - qty * q;
  }

  lemma ValueNonNegative(qty: int, price: int)
    requires qty >= 0 && price >= 0
    ensures Value(qty, price) >= 0.0
  {
  }

  lemma ValueNegates(qty: int, price: int)
    ensures Value(-qty, price) == -Value(qty, price) == Value(qty, -price)
  {
    assert (-qty) * price == -(qty * price) == qty * (-price);
  }

  /** A rounded quotient times its divisor is the dividend, up to half a unit per unit of divisor. */
  lemma RoundedQuotient(n: int, d: int)
    requires d > 0
    ensures var e := Round(n as real / d as real);
            -(d as real) / 2.0 <= (n - d * e) as real <= d as real / 2.0
  {
    var e := Round(n as real / d as real);
    NearQuotient(n as real, d as real, e as real);
    IntProduct(d, e);
  }

  lemma NearQuotient(n: real, d: real, e: real)
    requires d > 0.0 && -0.5 <= e - n / d <= 0.5
    ensures -d / 2.0 <= n - d * e <= d / 2.0
  {
    var x := n / d;
    ScaleError(x - e, d);
    assert n == x * d;
    var gap := x - e;
    assert -d / 2.0 <= gap * d <= d / 2.0;
    assert gap * d == x * d - e * d;
    assert gap * d == n - d * e;
  }

  lemma IntProduct(a: int, b: int)
    ensures (a * b) as real == a as real * b as real
  {
  }

  lemma ScaleError(err: real, d: real)
    requires d > 0.0 && -0.5 <= err <= 0.5
    ensures -d / 2.0 <= err * d <= d / 2.0
  {
  }

  lemma DivideBound(x: real, lo: real, d: real)
    requires d > 0.0 && x >= lo * d
    ensures x / d >= lo
  {
    assert x / d - lo == (x - lo * d) / d;
  }

  lemma Division(n: int, d: int)
    requires d > 0
    ensures n / d * d <= n < n / d * d + d
    ensures n >= 0 ==> n / d >= 0
  {
    var q := n / d;
    var r := n % d;
    assert n == q * d + r;
  }

  lemma MultipleAtLeast(x: int, d: int)
    requires d > 0
    ensures x >= 1 ==> x * d >= d
    ensures x <= -1 ==> x * d <= -d
  {
  }

  /** The quotient is the only number of whole divisors that fits. */
  lemma QuotientIs(n: int, d: int, q: int)
    requires d > 0 && q * d <= n < q * d + d
    ensures n / d == q
  {
    Division(n, d);
    SameMultiple(n, d, n / d, q);
  }

  lemma SameMultiple(n: int, d: int, p: int, q: int)
    requires d > 0 && p * d <= n < p * d + d && q * d <= n < q * d + d
    ensures p == q
  {
    assert (q - p) * d == q * d - p * d;
    MultipleAtLeast(q - p, d);
  }

  /** A weighted average is at least the smaller of the two numbers it averages. */
  lemma WeightedAtLeast(a: int, b: int, m: int, n: int)
    requires m > 0 && n > 0
    ensures (a * m + b * n) as real / (m + n) as real >= Min(a, b) as real
  {
    var lo := Min(a, b);
    assert a * m >= lo * m && b * n >= lo * n;
    assert a * m + b * n >= lo * (m + n);
    DivideBound((a * m + b * n) as real, lo as real, (m + n) as real);
  }
}
