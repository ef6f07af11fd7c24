/** The price levels of an arithmetic grid, and the pair of levels around a price. */
module GridLevels {
  import opened GridMath

  function Spacing(lower: real, upper: real, count: int): real
    requires count > 0
  {
    (upper - lower) / count as real
  }

  /** grid_levels in arithmetic mode */
  function Levels(lower: real, upper: real, count: int): seq<real> {
    if count < 2 then [Round6(lower), Round6(upper)]
    else seq(count + 1, i => Round6(lower + Times(i, Spacing(lower, upper, count))))
  }

  lemma TimesMonotone(i: int, j: int, s: real)
    requires i <= j && s >= 0.0
    ensures Times(i, s) <= Times(j, s)
    ensures Times(i + 1, s) == Times(i, s) + s
  {
    assert (j - i) as real * s >= 0.0;
  }

  lemma SpacingEnds(lower: real, upper: real, count: int)
    requires count > 0
    ensures Times(count, Spacing(lower, upper, count)) == upper - lower
    ensures Times(0, Spacing(lower, upper, count)) == 0.0
    ensures lower <= upper ==> Spacing(lower, upper, count) >= 0.0
  {
    var s := Spacing(lower, upper, count);
    assert s * count as real == upper - lower;
  }

  /** A grid runs from its lower to its upper price, never falls, and no two neighbours are further
      apart than the spacing and one rounding unit. */
  lemma GridIsEven(lower: real, upper: real, count: int)
    requires lower <= upper && count >= 2
    ensures var ls := Levels(lower, upper, count);
            && |ls| == count + 1
            && ls[0] == Round6(lower) && ls[count] == Round6(upper)
            && (forall i, j :: 0 <= i <= j <= count ==> ls[i] <= ls[j])
            && (forall i :: 0 <= i < count ==> ls[i + 1] - ls[i] <= Spacing(lower, upper, count) + 1.0 / MICRO)
  {
    var s := Spacing(lower, upper, count);
    var ls := Levels(lower, upper, count);
    SpacingEnds(lower, upper, count);
    forall i, j | 0 <= i <= j <= count ensures ls[i] <= ls[j] {
      TimesMonotone(i, j, s);
      Round6Monotone(lower + Times(i, s), lower + Times(j, s));
    }
    forall i | 0 <= i < count ensures ls[i + 1] - ls[i] <= s + 1.0 / MICRO {
      TimesMonotone(i, i, s);
      Round6Near(lower + Times(i, s));
      Round6Near(lower + Times(i + 1, s));
    }
  }

  predicate Around(levels: seq<real>, i: nat, price: real)
    requires i < |levels| - 1
  {
    levels[i] <= price <= levels[i + 1]
  }

  /** nearest_level_indexes: the first neighbouring pair around a price inside the levels, in order or
      not; the outermost pair for a price outside them. */
  method NearestLevels(levels: seq<real>, price: real) returns (lo: nat, hi: nat)
    ensures levels == [] ==> lo == 0 && hi == 0
    ensures levels != [] && price <= levels[0] ==> lo == 0 && hi == (if |levels| > 1 then 1 else 0)
    ensures levels != [] && price > levels[0] && price >= levels[|levels| - 1]
            ==> hi == |levels| - 1 && lo == (if hi > 0 then hi - 1 else hi)
    ensures levels != [] && levels[0] < price < levels[|levels| - 1] ==>
              lo < |levels| - 1 && hi == lo + 1 && Around(levels, lo, price)
                && forall j: nat :: j < lo ==> !Around(levels, j, price)
  {
    if levels == [] {
      return 0, 0;
    }
    if price <= levels[0] {
      return 0, if |levels| > 1 then 1 else 0;
    }
    if price >= levels[|levels| - 1] {
      var idx := |levels| - 1;
      return if idx > 0 then idx - 1 else idx, idx;
    }
    lo, hi := 0, |levels| - 1;
    for idx := 0 to |levels| - 1
      invariant levels[idx] < price
      invariant forall j: nat :: j < idx ==> !Around(levels, j, price)
    {
      if levels[idx] <= price <= levels[idx + 1] {
        lo, hi := idx, idx + 1;
        assert Around(levels, idx, price);
        return;
      }
    }
  }

  /** On a grid, a price inside it lies between its two levels, and they are one spacing apart. */
  method NearestOnGrid(lower: real, upper: real, count: int, price: real) returns (lo: nat, hi: nat)
    requires lower <= upper && count >= 2
    ensures var ls := Levels(lower, upper, count);
            && |ls| == count + 1 && lo < |ls| && hi < |ls|
            && (Round6(lower) <= price <= Round6(upper) ==>
                  hi == lo + 1 && ls[lo] <= price <= ls[hi]
                  && ls[hi] - ls[lo] <= Spacing(lower, upper, count) + 1.0 / MICRO)
  {
    GridIsEven(lower, upper, count);
    lo, hi := NearestLevels(Levels(lower, upper, count), price);
  }
}
