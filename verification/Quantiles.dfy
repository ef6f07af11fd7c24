/** Interpolated quantiles, winsorizing and percentile bands, over exact reals. */
module Quantiles {
  import opened Wrappers

  // ----- sorting ------------------------------------------------------------------------------

  ghost predicate Ascending(s: seq<real>) {
    s == [] || (Ascending(s[1..]) && forall y :: y in multiset(s[1..]) ==> s[0] <= y)
  }

  lemma {:induction false} AscendingAt(s: seq<real>, i: nat, j: nat)
    requires Ascending(s) && i <= j < |s|
    ensures s[i] <= s[j]
  {
    if i > 0 {
      AscendingAt(s[1..], i - 1, j - 1);
    } else if j > 0 {
      assert s[1..][j - 1] in multiset(s[1..]);
    }
  }

  lemma {:induction false} AscendingWhen(s: seq<real>)
    requires forall i, j :: 0 <= i <= j < |s| ==> s[i] <= s[j]
    ensures Ascending(s)
  {
    if s != [] {
      AscendingWhen(s[1..]);
      forall y | y in multiset(s[1..]) ensures s[0] <= y {
        var k :| 0 <= k < |s[1..]| && s[1..][k] == y;
        assert s[k + 1] == y;
      }
    }
  }

  function Insert(x: real, s: seq<real>): (r: seq<real>)
    ensures multiset(r) == multiset(s) + multiset{x}
  {
    if s == [] then [x]
    else if x <= s[0] then [x] + s
    else
      assert s == [s[0]] + s[1..];
      [s[0]] + Insert(x, s[1..])
  }

  lemma {:induction false} InsertAscends(x: real, s: seq<real>)
    requires Ascending(s)
    ensures Ascending(Insert(x, s))
  {
    if s == [] {
    } else if x <= s[0] {
      assert ([x] + s)[1..] == s;
      assert s == [s[0]] + s[1..];
    } else {
      InsertAscends(x, s[1..]);
      assert Insert(x, s)[1..] == Insert(x, s[1..]);
    }
  }

  /** The series in ascending order. */
  function Sorted(s: seq<real>): (r: seq<real>)
    ensures multiset(r) == multiset(s)
    ensures |r| == |s|
  {
    if s == [] then []
    else
      var r := Insert(s[0], Sorted(s[1..]));
      assert s == [s[0]] + s[1..];
      assert |multiset(r)| == |multiset(s)|;
      r
  }

  lemma {:induction false} SortedAscends(s: seq<real>)
    ensures Ascending(Sorted(s))
  {
    if s != [] {
      SortedAscends(s[1..]);
      InsertAscends(s[0], Sorted(s[1..]));
    }
  }

  lemma LeastFirst(a: seq<real>, b: seq<real>)
    requires Ascending(a) && Ascending(b) && multiset(a) == multiset(b) && a != [] && b != []
    ensures a[0] <= b[0]
  {
    assert b[0] in multiset(b);
    var k :| 0 <= k < |a| && a[k] == b[0];
    AscendingAt(a, 0, k);
  }

  lemma SameTails(a: seq<real>, b: seq<real>)
    requires a != [] && b != [] && a[0] == b[0] && multiset(a) == multiset(b)
    ensures multiset(a[1..]) == multiset(b[1..])
  {
    assert a == [a[0]] + a[1..] && b == [b[0]] + b[1..];
    assert multiset(a[1..]) == multiset(a) - multiset{a[0]};
    assert multiset(b[1..]) == multiset(b) - multiset{b[0]};
  }

  lemma SameLength(a: seq<real>, b: seq<real>)
    requires multiset(a) == multiset(b)
    ensures |a| == |b|
  {
    assert |multiset(a)| == |multiset(b)|;
  }

  /** Only one ascending series holds the same values. */
  lemma {:induction false} AscendingUnique(a: seq<real>, b: seq<real>)
    requires Ascending(a) && Ascending(b) && multiset(a) == multiset(b)
    ensures a == b
  {
    SameLength(a, b);
    if a != [] {
      LeastFirst(a, b);
      LeastFirst(b, a);
      SameTails(a, b);
      AscendingUnique(a[1..], b[1..]);
    }
  }

  // ----- quantiles ----------------------------------------------------------------------------

  function Clamp(x: real, low: real, high: real): real {
    var capped := if x < high then x else high;
    if capped < low then low else capped
  }

  /** The point a fraction of the way from one value to another. */
  function Blend(a: real, b: real, weight: real): real {
    a + (b - a) * weight
  }

  /** The value at a fractional index of a sorted series. */
  function At(s: seq<real>, index: real): real
    requires s != [] && 0.0 <= index <= (|s| - 1) as real
  {
    var lower := index.Floor;
    var upper := Ceil(index);
    if lower == upper then s[lower] else Blend(s[lower], s[upper], index - lower as real)
  }

  function Index(n: nat, q: real): (x: real)
    requires n > 0
    ensures 0.0 <= x <= (n - 1) as real
  {
    var bounded := Clamp(q, 0.0, 1.0);
    Fraction((n - 1) as real, bounded);
    Portion((n - 1) as real, bounded)
  }

  function Portion(m: real, x: real): real {
    m * x
  }

  lemma Fraction(m: real, x: real)
    requires m >= 0.0 && 0.0 <= x <= 1.0
    ensures 0.0 <= Portion(m, x) <= m
  {
    assert m * (1.0 - x) >= 0.0;
  }

  lemma Scaling(m: real, x: real, y: real)
    requires m >= 0.0 && x <= y
    ensures Portion(m, x) <= Portion(m, y)
  {
  }

  function Quantile(values: seq<real>, q: real): Option<real> {
    if values == [] then None else Some(At(Sorted(values), Index(|values|, q)))
  }

  /** Between two values of the sorted series. */
  lemma AtBetween(s: seq<real>, x: real)
    requires Ascending(s) && s != [] && 0.0 <= x <= (|s| - 1) as real
    ensures s[x.Floor] <= At(s, x) <= s[Ceil(x)]
  {
    AscendingAt(s, x.Floor, Ceil(x));
    if x.Floor != Ceil(x) {
      BlendInside(s[x.Floor], s[Ceil(x)], x - x.Floor as real);
    }
  }

  lemma AtMonotone(s: seq<real>, x: real, y: real)
    requires Ascending(s) && s != [] && 0.0 <= x <= y <= (|s| - 1) as real
    ensures At(s, x) <= At(s, y)
  {
    AtBetween(s, x);
    AtBetween(s, y);
    if x.Floor < y.Floor {
      AscendingAt(s, Ceil(x), y.Floor);
    } else if x.Floor != Ceil(x) {
      AscendingAt(s, x.Floor, Ceil(x));
      assert y.Floor == x.Floor && Ceil(y) == Ceil(x);
      Between(s[x.Floor], s[Ceil(x)], x - x.Floor as real, y - y.Floor as real);
    }
  }

  lemma BlendInside(a: real, b: real, w: real)
    requires a <= b && 0.0 <= w <= 1.0
    ensures a <= Blend(a, b, w) <= b
  {
    Fraction(b - a, w);
  }

  lemma Between(a: real, b: real, u: real, v: real)
    requires a <= b && u <= v
    ensures Blend(a, b, u) <= Blend(a, b, v)
  {
    Scaling(b - a, u, v);
  }

  lemma IndexMonotone(n: nat, p: real, q: real)
    requires n > 0 && p <= q
    ensures Index(n, p) <= Index(n, q)
  {
    Scaling((n - 1) as real, Clamp(p, 0.0, 1.0), Clamp(q, 0.0, 1.0));
  }

  /** A higher quantile is never a lower value. */
  lemma QuantileMonotone(values: seq<real>, p: real, q: real)
    requires values != [] && p <= q
    ensures Quantile(values, p).value <= Quantile(values, q).value
  {
    SortedAscends(values);
    IndexMonotone(|values|, p, q);
    AtMonotone(Sorted(values), Index(|values|, p), Index(|values|, q));
  }

  // ----- winsorizing --------------------------------------------------------------------------

  function ClampAll(values: seq<real>, low: real, high: real): (r: seq<real>)
    ensures |r| == |values| && forall i :: 0 <= i < |r| ==> r[i] == Clamp(values[i], low, high)
  {
    if values == [] then [] else [Clamp(values[0], low, high)] + ClampAll(values[1..], low, high)
  }

  /** winsorizeSeries */
  function Winsorize(values: seq<real>, pct: real): seq<real> {
    var bounded := Clamp(pct, 0.0, 0.25);
    if |values| < 3 || bounded <= 0.0 then values
    else
      var low := Quantile(values, bounded).value;
      var high := Quantile(values, 1.0 - bounded).value;
      if low > high then values else ClampAll(values, low, high)
  }

  /** Every value is pulled into the bounds, none is dropped, and no two change places. */
  lemma WinsorizeKeepsOrder(values: seq<real>, pct: real, i: nat, j: nat)
    requires i < |values| && j < |values| && values[i] <= values[j]
    ensures |Winsorize(values, pct)| == |values|
    ensures Winsorize(values, pct)[i] <= Winsorize(values, pct)[j]
  {
  }

  lemma {:induction false} ClampAscends(s: seq<real>, low: real, high: real)
    requires Ascending(s)
    ensures Ascending(ClampAll(s, low, high))
  {
    var r := ClampAll(s, low, high);
    forall i, j | 0 <= i <= j < |r| ensures r[i] <= r[j] {
      AscendingAt(s, i, j);
    }
    AscendingWhen(r);
  }

  lemma {:induction false} ClampInsert(x: real, s: seq<real>, low: real, high: real)
    ensures multiset(ClampAll(Insert(x, s), low, high))
         == multiset(ClampAll(s, low, high)) + multiset{Clamp(x, low, high)}
  {
    var r := Insert(x, s);
    if s == [] {
    } else if x <= s[0] {
      assert r[1..] == s;
    } else {
      ClampInsert(x, s[1..], low, high);
      assert r[1..] == Insert(x, s[1..]);
    }
  }

  lemma {:induction false} ClampSorted(values: seq<real>, low: real, high: real)
    ensures multiset(ClampAll(Sorted(values), low, high)) == multiset(ClampAll(values, low, high))
  {
    if values != [] {
      ClampSorted(values[1..], low, high);
      ClampInsert(values[0], Sorted(values[1..]), low, high);
    }
  }

  lemma SortedTwice(values: seq<real>)
    ensures Sorted(Sorted(values)) == Sorted(values)
  {
    SortedAscends(values);
    SortedAscends(Sorted(values));
    AscendingUnique(Sorted(Sorted(values)), Sorted(values));
  }

  /** Clamping and sorting commute. */
  lemma ClampCommutes(values: seq<real>, low: real, high: real)
    ensures Sorted(ClampAll(values, low, high)) == ClampAll(Sorted(values), low, high)
  {
    SortedAscends(values);
    SortedAscends(ClampAll(values, low, high));
    ClampAscends(Sorted(values), low, high);
    ClampSorted(values, low, high);
    AscendingUnique(Sorted(ClampAll(values, low, high)), ClampAll(Sorted(values), low, high));
  }

  /** So do winsorizing and sorting. */
  lemma WinsorizeCommutes(values: seq<real>, pct: real)
    ensures Sorted(Winsorize(values, pct)) == Winsorize(Sorted(values), pct)
  {
    SortedTwice(values);
    var bounded := Clamp(pct, 0.0, 0.25);
    if |values| >= 3 && bounded > 0.0 {
      ClampCommutes(values, Quantile(values, bounded).value, Quantile(values, 1.0 - bounded).value);
    }
  }

  /** Index `x` lies on or inside the values that the bounds are interpolated from. */
  predicate InsideBounds(n: nat, x: real, pct: real)
    requires n > 0
  {
    x.Floor >= Ceil(Index(n, pct)) && Ceil(x) <= Index(n, 1.0 - pct).Floor
  }

  lemma SameAt(a: seq<real>, b: seq<real>, x: real)
    requires a != [] && |a| == |b| && 0.0 <= x <= (|a| - 1) as real
    requires a[x.Floor] == b[x.Floor] && a[Ceil(x)] == b[Ceil(x)]
    ensures At(a, x) == At(b, x)
  {
  }

  lemma AtUnclamped(s: seq<real>, x: real, low: real, high: real)
    requires Ascending(s) && s != [] && 0.0 <= x <= (|s| - 1) as real
    requires low <= s[x.Floor] && s[Ceil(x)] <= high
    ensures At(ClampAll(s, low, high), x) == At(s, x)
  {
    AscendingAt(s, x.Floor, Ceil(x));
    SameAt(s, ClampAll(s, low, high), x);
  }

  /** Winsorizing does not move a quantile whose index lies inside the bounds. */
  lemma QuantileUnmoved(values: seq<real>, pct: real, q: real)
    requires values != [] && InsideBounds(|values|, Index(|values|, q), Clamp(pct, 0.0, 0.25))
    ensures Quantile(Winsorize(values, pct), q) == Quantile(values, q)
  {
    var bounded := Clamp(pct, 0.0, 0.25);
    var n := |values|;
    var x := Index(n, q);
    if n >= 3 && bounded > 0.0 {
      var low := Quantile(values, bounded).value;
      var high := Quantile(values, 1.0 - bounded).value;
      var s := Sorted(values);
      SortedAscends(values);
      AtBetween(s, Index(n, bounded));
      AtBetween(s, Index(n, 1.0 - bounded));
      AscendingAt(s, Ceil(Index(n, bounded)), x.Floor);
      AscendingAt(s, Ceil(x), Index(n, 1.0 - bounded).Floor);
      ClampCommutes(values, low, high);
      AtUnclamped(s, x, low, high);
    }
  }

  // ----- bands --------------------------------------------------------------------------------

  datatype Bands = Bands(p10: real, p25: real, p50: real, p75: real, p90: real)

  predicate Ordered(b: Bands) {
    b.p10 <= b.p25 <= b.p50 <= b.p75 <= b.p90
  }

  function BandsOf(source: seq<real>): Bands
    requires source != []
  {
    Bands(Quantile(source, 0.1).value, Quantile(source, 0.25).value, Quantile(source, 0.5).value,
          Quantile(source, 0.75).value, Quantile(source, 0.9).value)
  }

  /** quantileBands */
  function QuantileBands(values: seq<real>, pct: real): Option<Bands> {
    var source := Winsorize(values, pct);
    if |source| < 5 then None else Some(BandsOf(source))
  }

  /** Five values are needed and enough for bands, and bands are always in order. */
  lemma BandsOrdered(values: seq<real>, pct: real)
    ensures QuantileBands(values, pct).Some? <==> |values| >= 5
    ensures QuantileBands(values, pct).Some? ==> Ordered(QuantileBands(values, pct).value)
  {
    var source := Winsorize(values, pct);
    if |source| >= 5 {
      QuantileMonotone(source, 0.1, 0.25);
      QuantileMonotone(source, 0.25, 0.5);
      QuantileMonotone(source, 0.5, 0.75);
      QuantileMonotone(source, 0.75, 0.9);
    }
  }

  lemma ClampBounds(pct: real)
    ensures 0.0 <= Clamp(pct, 0.0, 0.25) <= 0.25 && (pct > 0.0 ==> Clamp(pct, 0.0, 0.25) > 0.0)
  {
  }

  lemma ClampInside(x: real, low: real, high: real)
    requires low <= high
    ensures low <= Clamp(x, low, high) <= high
  {
  }

  /** The bounds are never crossed, so the winsorized series always lies between them. */
  lemma WinsorizeBounds(values: seq<real>, pct: real, i: nat)
    requires i < |values| && |values| >= 3 && pct > 0.0
    ensures var bounded := Clamp(pct, 0.0, 0.25);
            Quantile(values, bounded).value <= Winsorize(values, pct)[i] <= Quantile(values, 1.0 - bounded).value
  {
    var bounded := Clamp(pct, 0.0, 0.25);
    ClampBounds(pct);
    var low, high := Quantile(values, bounded).value, Quantile(values, 1.0 - bounded).value;
    assert low <= high by {
      QuantileMonotone(values, bounded, 1.0 - bounded);
    }
    ClampInside(values[i], low, high);
  }

  lemma InsideAt(n: nat, pct: real, q: real)
    requires n >= 11 && 0.0 <= pct <= 0.01 && 0.1 <= q <= 0.9
    ensures InsideBounds(n, Index(n, q), pct)
  {
    IndexMonotone(n, 0.1, q);
    IndexMonotone(n, q, 0.9);
    IndexMonotone(n, pct, 0.01);
    IndexMonotone(n, 0.99, 1.0 - pct);
    TenthsAndHundredths(n - 1);
  }

  lemma TenthsAndHundredths(m: int)
    requires m >= 10
    ensures Ceil(Portion(m as real, 0.01)) <= Portion(m as real, 0.1).Floor
    ensures Ceil(Portion(m as real, 0.9)) <= Portion(m as real, 0.99).Floor
  {
    var k := (m as real * 0.1).Floor;
    assert Ceil(m as real * 0.9) <= m - k <= (m as real * 0.99).Floor;
  }

  /** From eleven values on, winsorizing by up to one percent (the default) moves no band. */
  lemma BandsIgnoreWinsorizing(values: seq<real>, pct: real)
    requires |values| >= 11 && 0.0 <= pct <= 0.01
    ensures QuantileBands(values, pct) == Some(BandsOf(values))
  {
    BandUnmoved(values, pct, 0.1);
    BandUnmoved(values, pct, 0.25);
    BandUnmoved(values, pct, 0.5);
    BandUnmoved(values, pct, 0.75);
    BandUnmoved(values, pct, 0.9);
  }

  lemma BandUnmoved(values: seq<real>, pct: real, q: real)
    requires |values| >= 11 && 0.0 <= pct <= 0.01 && 0.1 <= q <= 0.9
    ensures Quantile(Winsorize(values, pct), q) == Quantile(values, q)
  {
    InsideAt(|values|, pct, q);
    QuantileUnmoved(values, pct, q);
  }
}
