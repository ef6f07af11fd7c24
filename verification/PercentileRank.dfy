/** The percentile rank read off five quantile bands, and the thresholds built from them. */
module PercentileRank {
  import opened Wrappers
  import opened Quantiles

  function Interpolate(x: real, x1: real, y1: real, x2: real, y2: real): real {
    if x1 == x2 then (y1 + y2) / 2.0
    else Blend(y1, y2, (x - x1) / (x2 - x1))
  }

  type Points = seq<(real, real)>

  function PointsOf(b: Bands): Points {
    [(10.0, b.p10), (25.0, b.p25), (50.0, b.p50), (75.0, b.p75), (90.0, b.p90)]
  }

  /** The first pair of neighbouring points around the value decides. */
  function Scan(points: Points, i: nat, value: real): Option<real>
    requires 0 < |points|
    decreases |points| - i
  {
    if i >= |points| - 1 then None
    else
      var (r1, v1) := points[i];
      var (r2, v2) := points[i + 1];
      if v1 <= value <= v2 then Some(Clamp(Interpolate(value, v1, r1, v2, r2), 0.0, 100.0))
      else Scan(points, i + 1, value)
  }

  /** percentileRankFromBands */
  function Rank(value: real, b: Bands): Option<real> {
    if value <= b.p10 then Some(Clamp(Interpolate(value, b.p10, 10.0, b.p25, 25.0), 0.0, 100.0))
    else if value >= b.p90 then Some(Clamp(90.0 + (Interpolate(value, b.p75, 75.0, b.p90, 90.0) - 90.0), 0.0, 100.0))
    else Scan(PointsOf(b), 0, value)
  }

  /** A value between the first and the last point lies between some two neighbours. */
  lemma {:induction false} ScanFinds(points: Points, i: nat, value: real)
    requires i < |points| - 1 && points[i].1 <= value <= points[|points| - 1].1
    ensures Scan(points, i, value).Some? && 0.0 <= Scan(points, i, value).value <= 100.0
    decreases |points| - i
  {
    if value > points[i + 1].1 {
      ScanFinds(points, i + 1, value);
    }
  }

  /** Every value has a rank in [0, 100], whatever the bands, in order or not. */
  lemma RankTotal(value: real, b: Bands)
    ensures Rank(value, b).Some? && 0.0 <= Rank(value, b).value <= 100.0
  {
    if b.p10 < value < b.p90 {
      ScanFinds(PointsOf(b), 0, value);
    }
  }

  // ----- monotone -----------------------------------------------------------------------------

  lemma Quotient(x: real, y: real, d: real)
    requires d > 0.0
    ensures x <= y ==> x / d <= y / d
    ensures x >= 0.0 ==> x / d >= 0.0
    ensures x <= d ==> x / d <= 1.0
    ensures x >= d ==> x / d >= 1.0
    ensures x <= 0.0 ==> x / d <= 0.0
  {
  }

  lemma InterpolateMonotone(x: real, y: real, x1: real, y1: real, x2: real, y2: real)
    requires x <= y && x1 <= x2 && y1 <= y2
    ensures Interpolate(x, x1, y1, x2, y2) <= Interpolate(y, x1, y1, x2, y2)
  {
    if x1 < x2 {
      Quotient(x - x1, y - x1, x2 - x1);
      Between(y1, y2, (x - x1) / (x2 - x1), (y - x1) / (x2 - x1));
    }
  }

  /** Inside its points a segment stays between their ranks, outside it passes them. */
  lemma InterpolateWithin(x: real, x1: real, y1: real, x2: real, y2: real)
    requires x1 <= x2 && y1 <= y2
    ensures x <= x1 && x1 < x2 ==> Interpolate(x, x1, y1, x2, y2) <= y1
    ensures x1 <= x <= x2 ==> y1 <= Interpolate(x, x1, y1, x2, y2) <= y2
    ensures x >= x2 && x1 < x2 ==> Interpolate(x, x1, y1, x2, y2) >= y2
    ensures x1 == x2 ==> y1 <= Interpolate(x, x1, y1, x2, y2) <= y2
  {
    if x1 < x2 {
      var t := (x - x1) / (x2 - x1);
      Quotient(x - x1, x - x1, x2 - x1);
      if x <= x1 { Between(y1, y2, t, 0.0); }
      if x >= x1 { Between(y1, y2, 0.0, t); }
      if x <= x2 { Between(y1, y2, t, 1.0); }
      if x >= x2 { Between(y1, y2, 1.0, t); }
    }
  }

  /** Which pair of neighbouring points a value is ranked by. */
  function Segment(x: real, b: Bands): nat {
    if x <= b.p10 then 0
    else if x >= b.p90 then 3
    else if x <= b.p25 then 0
    else if x <= b.p50 then 1
    else if x <= b.p75 then 2
    else 3
  }

  function RawRank(x: real, b: Bands): real {
    var ps := PointsOf(b);
    var i := Segment(x, b);
    Interpolate(x, ps[i].1, ps[i].0, ps[i + 1].1, ps[i + 1].0)
  }

  lemma RankIsSegment(x: real, b: Bands)
    requires Ordered(b)
    ensures Rank(x, b) == Some(Clamp(RawRank(x, b), 0.0, 100.0))
  {
    if b.p10 < x < b.p90 {
      var ps := PointsOf(b);
      assert Scan(ps, 3, x)
        == if b.p75 <= x <= b.p90 then Some(Clamp(Interpolate(x, b.p75, 75.0, b.p90, 90.0), 0.0, 100.0))
           else Scan(ps, 4, x);
      assert Scan(ps, 2, x)
        == if b.p50 <= x <= b.p75 then Some(Clamp(Interpolate(x, b.p50, 50.0, b.p75, 75.0), 0.0, 100.0))
           else Scan(ps, 3, x);
      assert Scan(ps, 1, x)
        == if b.p25 <= x <= b.p50 then Some(Clamp(Interpolate(x, b.p25, 25.0, b.p50, 50.0), 0.0, 100.0))
           else Scan(ps, 2, x);
    }
  }

  /** A rank stays between those of its neighbours, except below the first and above the last. */
  lemma RawRankWithin(x: real, b: Bands)
    requires Ordered(b)
    ensures Segment(x, b) > 0 ==> RawRank(x, b) >= PointsOf(b)[Segment(x, b)].0
    ensures Segment(x, b) < 3 ==> RawRank(x, b) <= PointsOf(b)[Segment(x, b) + 1].0
  {
    var ps := PointsOf(b);
    var i := Segment(x, b);
    InterpolateWithin(x, ps[i].1, ps[i].0, ps[i + 1].1, ps[i + 1].0);
  }

  /** A larger value never has a lower rank, ties between bands included. */
  lemma RankMonotone(x: real, y: real, b: Bands)
    requires Ordered(b) && x <= y
    ensures Rank(x, b).Some? && Rank(y, b).Some? && Rank(x, b).value <= Rank(y, b).value
  {
    var ps := PointsOf(b);
    RankIsSegment(x, b);
    RankIsSegment(y, b);
    RawRankWithin(x, b);
    RawRankWithin(y, b);
    var i := Segment(x, b);
    if i == Segment(y, b) {
      InterpolateMonotone(x, y, ps[i].1, ps[i].0, ps[i + 1].1, ps[i + 1].0);
    }
  }

  /** The order of the bands is needed: with two of them exchanged a larger value can rank lower. */
  lemma UnorderedBandsMisrank()
    ensures var b := Bands(2.0, 1.0, 3.0, 4.0, 5.0); Rank(1.0, b) == Some(25.0) && Rank(2.0, b) == Some(10.0)
  {
  }

  /** Distinct bands rank at their own percentile. */
  lemma BandsRankThemselves(b: Bands)
    requires b.p10 < b.p25 < b.p50 < b.p75 < b.p90
    ensures Rank(b.p10, b) == Some(10.0) && Rank(b.p25, b) == Some(25.0) && Rank(b.p50, b) == Some(50.0)
         && Rank(b.p75, b) == Some(75.0) && Rank(b.p90, b) == Some(90.0)
  {
    InterpolateEnds(b.p10, 10.0, b.p25, 25.0);
    InterpolateEnds(b.p25, 25.0, b.p50, 50.0);
    InterpolateEnds(b.p50, 50.0, b.p75, 75.0);
    InterpolateEnds(b.p75, 75.0, b.p90, 90.0);
    RankIsSegment(b.p10, b);
    RankIsSegment(b.p25, b);
    RankIsSegment(b.p50, b);
    RankIsSegment(b.p75, b);
    RankIsSegment(b.p90, b);
  }

  lemma InterpolateEnds(x1: real, y1: real, x2: real, y2: real)
    requires x1 < x2
    ensures Interpolate(x1, x1, y1, x2, y2) == y1 && Interpolate(x2, x1, y1, x2, y2) == y2
  {
    var d := x2 - x1;
    assert (x2 - x1) / (x2 - x1) == d / d == 1.0;
  }

  // ----- thresholds ---------------------------------------------------------------------------

  datatype AtrThresholds = AtrThresholds(bands: Bands, volLow: real, volHigh: real, volExtreme: real)
  datatype EmaThresholds = EmaThresholds(bands: Bands, trendWeak: real, trendStrong: real)
  datatype Edged = Edged(bands: Bands, edge: real)

  /** `spread`'s edge is its high threshold, `depth`'s its low one. */
  datatype Thresholds = Thresholds(atr: AtrThresholds, ema: EmaThresholds, spread: Option<Edged>, depth: Option<Edged>)

  const FALLBACK: Thresholds := Thresholds(
    AtrThresholds(Bands(0.004, 0.0075, 0.012, 0.02, 0.03), 0.0075, 0.02, 0.03),
    EmaThresholds(Bands(0.0002, 0.0005, 0.001, 0.002, 0.003), 0.0005, 0.002),
    None, None)

  datatype Built = Built(thresholds: Thresholds, usedFallback: bool)

  /** buildFeatureThresholds, without the bar counts it reports */
  function Build(atr: seq<real>, ema: seq<real>, spread: seq<real>, depth: seq<real>, pct: real): Built {
    var bounded := Clamp(pct, 0.0, 0.25);
    var a := QuantileBands(atr, bounded);
    var e := QuantileBands(ema, bounded);
    var s := QuantileBands(spread, bounded);
    var d := QuantileBands(depth, bounded);
    Built(Thresholds(
            if a.Some? then AtrThresholds(a.value, a.value.p25, a.value.p75, a.value.p90) else FALLBACK.atr,
            if e.Some? then EmaThresholds(e.value, e.value.p25, e.value.p75) else FALLBACK.ema,
            if s.Some? then Some(Edged(s.value, s.value.p90)) else None,
            if d.Some? then Some(Edged(d.value, d.value.p10)) else None),
          !(a.Some? && e.Some?))
  }

  predicate EdgedOk(e: Option<Edged>) {
    e.Some? ==> Ordered(e.value.bands)
  }

  /** For any series and any winsorizing, every threshold built is in order, and the fallback is used
      exactly when one of the two series it covers is shorter than five. */
  lemma BuiltInOrder(atr: seq<real>, ema: seq<real>, spread: seq<real>, depth: seq<real>, pct: real)
    ensures var r := Build(atr, ema, spread, depth, pct);
            var t := r.thresholds;
            && Ordered(t.atr.bands) && t.atr.volLow <= t.atr.volHigh <= t.atr.volExtreme
            && Ordered(t.ema.bands) && t.ema.trendWeak <= t.ema.trendStrong
            && EdgedOk(t.spread) && EdgedOk(t.depth)
            && (r.usedFallback <==> |atr| < 5 || |ema| < 5)
            && (t.spread.Some? <==> |spread| >= 5) && (t.depth.Some? <==> |depth| >= 5)
  {
    var bounded := Clamp(pct, 0.0, 0.25);
    BandsOrdered(atr, bounded);
    BandsOrdered(ema, bounded);
    BandsOrdered(spread, bounded);
    BandsOrdered(depth, bounded);
  }
}
