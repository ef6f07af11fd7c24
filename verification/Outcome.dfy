/** Judging a prediction by the candles that followed it: the first bar that touches a level decides. */
module Outcome {
  import opened Wrappers
  import F = FixedPoint

  datatype Signal = Up | Down | Neutral
  datatype Timeframe = M5 | M15 | H1 | H4 | D1

  datatype Bar = Bar(ts: Option<int>, open: real, high: real, low: real, close: real)

  /** The prices and the horizon a prediction was saved with, or its snapshot carries. */
  datatype Tracking = Tracking(entry: Option<real>, stopLoss: Option<real>, takeProfit: Option<real>,
                               horizonMs: Option<int>)

  /** What the snapshot holds under its tracking names. */
  datatype Snapshot = Snapshot(entry: Option<real>, stopLoss: Option<real>, takeProfit: Option<real>,
                               horizonMs: Option<real>)

  datatype Prediction = Prediction(signal: Signal, timeframe: Timeframe, createdAt: int, tracking: Tracking,
                                   snapshot: Snapshot)

  datatype Touched = TpHit | SlHit

  /** A decided level: which, whether both were touched, the profit, and the excursions until then. */
  datatype Hit = Hit(level: Touched, both: bool, pnlPct: real, maxFavorablePct: real, maxAdversePct: real)

  datatype Verdict =
    | Skipped                                                     // a neutral signal
    | Invalid(hasEntry: bool, hasStopLoss: bool, hasTakeProfit: bool)
    | NoData                                                      // the horizon passed without a bar
    | Decided(hit: Hit)
    | Expired(pnlPct: Option<real>, maxFavorablePct: real, maxAdversePct: real)
    | Pending(maxFavorablePct: real, maxAdversePct: real)

  // ----- prices -------------------------------------------------------------------------------

  /** `Number(x.toFixed(4))` */
  function Round4(x: real): real {
    F.Round(x * 10000.0) as real / 10000.0
  }

  /** What a price move is of the entry price, in percent. */
  function Percent(move: real, entry: real): real
    requires entry > 0.0
  {
    move / entry * 100.0
  }

  /** computeSignalPnlPct */
  function PnlPct(signal: Signal, entry: real, price: real): real {
    if entry <= 0.0 || price <= 0.0 then 0.0
    else if signal.Down? then Percent(entry - price, entry)
    else Percent(price - entry, entry)
  }

  function Favorable(signal: Signal, entry: real, b: Bar): real
    requires entry > 0.0
  {
    if signal.Down? then Percent(entry - b.low, entry) else Percent(b.high - entry, entry)
  }

  function Adverse(signal: Signal, entry: real, b: Bar): real
    requires entry > 0.0
  {
    if signal.Down? then Percent(entry - b.high, entry) else Percent(b.low - entry, entry)
  }

  predicate TouchesTp(signal: Signal, tp: real, b: Bar) {
    if signal.Down? then b.low <= tp else b.high >= tp
  }

  predicate TouchesSl(signal: Signal, sl: real, b: Bar) {
    if signal.Down? then b.high >= sl else b.low <= sl
  }

  predicate Touches(signal: Signal, tp: real, sl: real, b: Bar) {
    TouchesTp(signal, tp, b) || TouchesSl(signal, sl, b)
  }

  function MaxReal(a: real, b: real): real {
    if a < b then b else a
  }

  function MinReal(a: real, b: real): real {
    if b < a then b else a
  }

  // ----- the reference ------------------------------------------------------------------------

  /** The first bar that touches a level, or the number of bars. */
  function FirstTouch(signal: Signal, tp: real, sl: real, bars: seq<Bar>): (k: nat)
    ensures k <= |bars|
    ensures forall i :: 0 <= i < k ==> !Touches(signal, tp, sl, bars[i])
    ensures k < |bars| ==> Touches(signal, tp, sl, bars[k])
  {
    if bars == [] || Touches(signal, tp, sl, bars[0]) then 0
    else 1 + FirstTouch(signal, tp, sl, bars[1..])
  }

  function Highest(signal: Signal, entry: real, bars: seq<Bar>): real
    requires entry > 0.0 && bars != []
  {
    var last := bars[|bars| - 1];
    if |bars| == 1 then Favorable(signal, entry, last)
    else MaxReal(Highest(signal, entry, bars[..|bars| - 1]), Favorable(signal, entry, last))
  }

  function Lowest(signal: Signal, entry: real, bars: seq<Bar>): real
    requires entry > 0.0 && bars != []
  {
    var last := bars[|bars| - 1];
    if |bars| == 1 then Adverse(signal, entry, last)
    else MinReal(Lowest(signal, entry, bars[..|bars| - 1]), Adverse(signal, entry, last))
  }

  /** The excursions are the extremes over the bars, each reached by one of them. */
  lemma {:induction false} ExtremesReached(signal: Signal, entry: real, bars: seq<Bar>)
    requires entry > 0.0 && bars != []
    ensures forall b :: b in bars ==> Favorable(signal, entry, b) <= Highest(signal, entry, bars)
    ensures exists b :: b in bars && Favorable(signal, entry, b) == Highest(signal, entry, bars)
    ensures forall b :: b in bars ==> Adverse(signal, entry, b) >= Lowest(signal, entry, bars)
    ensures exists b :: b in bars && Adverse(signal, entry, b) == Lowest(signal, entry, bars)
  {
    var init, last := bars[..|bars| - 1], bars[|bars| - 1];
    assert bars == init + [last] && last in bars;
    if init != [] {
      ExtremesReached(signal, entry, init);
    }
  }

  /** The verdict a touching bar gives, with the excursions up to it: the stop loss wins a tie. */
  function HitAt(signal: Signal, entry: real, tp: real, sl: real, b: Bar, favorable: real, adverse: real): Hit {
    var both := TouchesTp(signal, tp, b) && TouchesSl(signal, sl, b);
    var level := if TouchesSl(signal, sl, b) then SlHit else TpHit;
    Hit(level, both, Round4(PnlPct(signal, entry, if level.TpHit? then tp else sl)), Round4(favorable), Round4(adverse))
  }

  function Settle(signal: Signal, entry: real, tp: real, sl: real, bars: seq<Bar>, k: nat): Hit
    requires entry > 0.0 && k < |bars|
  {
    HitAt(signal, entry, tp, sl, bars[k], Highest(signal, entry, bars[..k + 1]), Lowest(signal, entry, bars[..k + 1]))
  }

  /** The verdict when no bar has touched a level. */
  function Unsettled(signal: Signal, entry: real, close: real, expired: bool, favorable: real, adverse: real): Verdict {
    if !expired then Pending(Round4(favorable), Round4(adverse))
    else Expired(if close > 0.0 then Some(Round4(PnlPct(signal, entry, close))) else None, Round4(favorable),
                 Round4(adverse))
  }

  function InRange(candles: seq<Bar>, from: int, to: int): seq<Bar> {
    if candles == [] then []
    else if candles[0].ts.Some? && from <= candles[0].ts.value <= to then [candles[0]] + InRange(candles[1..], from, to)
    else InRange(candles[1..], from, to)
  }

  function Trunc(x: real): int {
    if x >= 0.0 then x.Floor else -((-x).Floor)
  }

  function IntervalMs(t: Timeframe): int {
    match t
    case M5 => 5 * 60 * 1000
    case M15 => 15 * 60 * 1000
    case H1 => 60 * 60 * 1000
    case H4 => 4 * 60 * 60 * 1000
    case D1 => 24 * 60 * 60 * 1000
  }

  /** derivePredictionTrackingFromSnapshot; `horizonBars` is configured. */
  function Derived(s: Snapshot, timeframe: Timeframe, horizonBars: int): Tracking {
    Tracking(s.entry, s.stopLoss, s.takeProfit,
             Some(if s.horizonMs.Some? then F.Max(60000, Trunc(s.horizonMs.value))
                  else IntervalMs(timeframe) * horizonBars))
  }

  function OrElse<T>(a: Option<T>, b: Option<T>): Option<T> {
    if a.Some? then a else b
  }

  function Tracked(p: Prediction, horizonBars: int): Tracking {
    var d := Derived(p.snapshot, p.timeframe, horizonBars);
    Tracking(OrElse(p.tracking.entry, d.entry), OrElse(p.tracking.stopLoss, d.stopLoss),
             OrElse(p.tracking.takeProfit, d.takeProfit), OrElse(p.tracking.horizonMs, d.horizonMs))
  }

  /** A price of zero counts as missing. */
  predicate Present(x: Option<real>) {
    x.Some? && x.value != 0.0
  }

  predicate Trackable(t: Tracking) {
    Present(t.entry) && t.entry.value > 0.0 && Present(t.stopLoss) && Present(t.takeProfit) && t.horizonMs.Some?
  }

  function ExpiresAt(p: Prediction, horizonBars: int): int
    requires Tracked(p, horizonBars).horizonMs.Some?
  {
    p.createdAt + F.Max(60000, Tracked(p, horizonBars).horizonMs.value)
  }

  function Scanned(p: Prediction, candles: seq<Bar>, now: int, horizonBars: int): seq<Bar>
    requires Tracked(p, horizonBars).horizonMs.Some?
  {
    InRange(candles, p.createdAt, F.Min(now, ExpiresAt(p, horizonBars)))
  }

  /** The verdict on the bars in range of a prediction with usable prices. */
  function Judge(signal: Signal, entry: real, tp: real, sl: real, bars: seq<Bar>, expired: bool): Option<Verdict>
    requires entry > 0.0
  {
    var k := FirstTouch(signal, tp, sl, bars);
    if bars == [] then (if expired then Some(NoData) else None)
    else if k < |bars| then Some(Decided(Settle(signal, entry, tp, sl, bars, k)))
    else
      Some(Unsettled(signal, entry, bars[|bars| - 1].close, expired, Highest(signal, entry, bars),
                     Lowest(signal, entry, bars)))
  }

  /** What evaluatePredictionOutcomeFromCandles answers. */
  function Evaluated(p: Prediction, candles: seq<Bar>, now: int, horizonBars: int): Option<Verdict> {
    var t := Tracked(p, horizonBars);
    if p.signal.Neutral? then Some(Skipped)
    else if !Trackable(t) then Some(Invalid(Present(t.entry), Present(t.stopLoss), Present(t.takeProfit)))
    else Judge(p.signal, t.entry.value, t.takeProfit.value, t.stopLoss.value, Scanned(p, candles, now, horizonBars),
               now >= ExpiresAt(p, horizonBars))
  }

  // ----- the loop -----------------------------------------------------------------------------

  /** evaluatePredictionOutcomeFromCandles */
  method Evaluate(p: Prediction, candles: seq<Bar>, now: int, horizonBars: int) returns (r: Option<Verdict>)
    ensures r == Evaluated(p, candles, now, horizonBars)
  {
    if p.signal.Neutral? {
      return Some(Skipped);
    }
    var t := Tracked(p, horizonBars);
    if !Trackable(t) {
      return Some(Invalid(Present(t.entry), Present(t.stopLoss), Present(t.takeProfit)));
    }
    r := Scan(p.signal, t.entry.value, t.takeProfit.value, t.stopLoss.value, Scanned(p, candles, now, horizonBars),
              now >= ExpiresAt(p, horizonBars));
  }

  predicate Excursions(signal: Signal, entry: real, bars: seq<Bar>, favorable: real, adverse: real)
    requires entry > 0.0
  {
    bars != [] && favorable == Highest(signal, entry, bars) && adverse == Lowest(signal, entry, bars)
  }

  lemma ExcursionsExtend(signal: Signal, entry: real, bars: seq<Bar>, i: nat, favorable: real, adverse: real)
    requires entry > 0.0 && i < |bars| && (i > 0 ==> Excursions(signal, entry, bars[..i], favorable, adverse))
    ensures var f := Favorable(signal, entry, bars[i]);
            var a := Adverse(signal, entry, bars[i]);
            Excursions(signal, entry, bars[..i + 1], if i == 0 then f else MaxReal(favorable, f),
                       if i == 0 then a else MinReal(adverse, a))
  {
    assert bars[..i + 1][..i] == bars[..i];
  }

  lemma DecidedAt(signal: Signal, entry: real, tp: real, sl: real, bars: seq<Bar>, expired: bool, k: nat,
                  favorable: real, adverse: real)
    requires entry > 0.0 && k < |bars| && Touches(signal, tp, sl, bars[k])
    requires forall i :: 0 <= i < k ==> !Touches(signal, tp, sl, bars[i])
    requires Excursions(signal, entry, bars[..k + 1], favorable, adverse)
    ensures Judge(signal, entry, tp, sl, bars, expired)
         == Some(Decided(HitAt(signal, entry, tp, sl, bars[k], favorable, adverse)))
  {
    FirstTouchIs(signal, tp, sl, bars, k);
  }

  lemma Untouched(signal: Signal, entry: real, tp: real, sl: real, bars: seq<Bar>, expired: bool,
                  favorable: real, adverse: real)
    requires entry > 0.0 && Excursions(signal, entry, bars, favorable, adverse)
    requires forall b :: b in bars ==> !Touches(signal, tp, sl, b)
    ensures Judge(signal, entry, tp, sl, bars, expired)
         == Some(Unsettled(signal, entry, bars[|bars| - 1].close, expired, favorable, adverse))
  {
  }

  /** What the loop returns at a touching bar. */
  method DecideBar(signal: Signal, entry: real, tp: real, sl: real, bar: Bar, favorable: real, adverse: real)
    returns (h: Hit)
    requires Touches(signal, tp, sl, bar)
    ensures h == HitAt(signal, entry, tp, sl, bar, favorable, adverse)
  {
    var tpHit, slHit := TouchesTp(signal, tp, bar), TouchesSl(signal, sl, bar);
    var level := if tpHit && slHit then SlHit else if tpHit then TpHit else SlHit;
    var pnl := PnlPct(signal, entry, if level.TpHit? then tp else sl);
    return Hit(level, tpHit && slHit, Round4(pnl), Round4(favorable), Round4(adverse));
  }

  /** What is returned after the loop. */
  method CloseOrWait(signal: Signal, entry: real, close: real, expired: bool, favorable: real, adverse: real)
    returns (v: Verdict)
    ensures v == Unsettled(signal, entry, close, expired, favorable, adverse)
  {
    var expiredPnl := if close > 0.0 then Some(Round4(PnlPct(signal, entry, close))) else None;
    return if expired then Expired(expiredPnl, Round4(favorable), Round4(adverse))
           else Pending(Round4(favorable), Round4(adverse));
  }

  /** Its loop: running excursions and an early return. */
  method Scan(signal: Signal, entry: real, tp: real, sl: real, bars: seq<Bar>, expired: bool)
    returns (r: Option<Verdict>)
    requires entry > 0.0
    ensures r == Judge(signal, entry, tp, sl, bars, expired)
  {
    if bars == [] {
      return if expired then Some(NoData) else None;
    }
    var maxFavorable, maxAdverse: real := 0.0, 0.0;
    for i := 0 to |bars|
      invariant forall j :: 0 <= j < i ==> !Touches(signal, tp, sl, bars[j])
      invariant i > 0 ==> Excursions(signal, entry, bars[..i], maxFavorable, maxAdverse)
    {
      var bar := bars[i];
      var favorable, adverse := Favorable(signal, entry, bar), Adverse(signal, entry, bar);
      ExcursionsExtend(signal, entry, bars, i, maxFavorable, maxAdverse);
      maxFavorable := if i == 0 then favorable else MaxReal(maxFavorable, favorable);
      maxAdverse := if i == 0 then adverse else MinReal(maxAdverse, adverse);
      if Touches(signal, tp, sl, bar) {
        DecidedAt(signal, entry, tp, sl, bars, expired, i, maxFavorable, maxAdverse);
        var hit := DecideBar(signal, entry, tp, sl, bar, maxFavorable, maxAdverse);
        return Some(Decided(hit));
      }
    }
    assert bars[..|bars|] == bars;
    Untouched(signal, entry, tp, sl, bars, expired, maxFavorable, maxAdverse);
    var verdict := CloseOrWait(signal, entry, bars[|bars| - 1].close, expired, maxFavorable, maxAdverse);
    return Some(verdict);
  }

  lemma FirstTouchIs(signal: Signal, tp: real, sl: real, bars: seq<Bar>, k: nat)
    requires k < |bars| && Touches(signal, tp, sl, bars[k])
    requires forall i :: 0 <= i < k ==> !Touches(signal, tp, sl, bars[i])
    ensures FirstTouch(signal, tp, sl, bars) == k
  {
  }

  /** A prediction is decided exactly when some bar in range touches a level, by the first that does;
      the stop loss wins a tie, and the excursions are the extremes up to and including that bar. */
  lemma FirstTouchDecides(p: Prediction, candles: seq<Bar>, now: int, horizonBars: int)
    requires !p.signal.Neutral? && Trackable(Tracked(p, horizonBars))
    ensures var t := Tracked(p, horizonBars);
            var bars := Scanned(p, candles, now, horizonBars);
            var v := Evaluated(p, candles, now, horizonBars);
            var tp := t.takeProfit.value;
            var sl := t.stopLoss.value;
            && (v.Some? && v.value.Decided? <==> exists b :: b in bars && Touches(p.signal, tp, sl, b))
            && (v.Some? && v.value.Decided? ==>
                  exists k :: 0 <= k < |bars| && DecidesAt(p.signal, t.entry.value, tp, sl, bars, k, v.value.hit))
  {
    var t := Tracked(p, horizonBars);
    var bars := Scanned(p, candles, now, horizonBars);
    var k := FirstTouch(p.signal, t.takeProfit.value, t.stopLoss.value, bars);
    if k < |bars| {
      ExtremesReached(p.signal, t.entry.value, bars[..k + 1]);
      assert DecidesAt(p.signal, t.entry.value, t.takeProfit.value, t.stopLoss.value, bars, k,
                       Settle(p.signal, t.entry.value, t.takeProfit.value, t.stopLoss.value, bars, k));
    }
  }

  ghost predicate DecidesAt(signal: Signal, entry: real, tp: real, sl: real, bars: seq<Bar>, k: int, h: Hit)
    requires entry > 0.0
  {
    && 0 <= k < |bars| && Touches(signal, tp, sl, bars[k])
    && (forall i :: 0 <= i < k ==> !Touches(signal, tp, sl, bars[i]))
    && (h.level.SlHit? <==> TouchesSl(signal, sl, bars[k]))
    && (h.both <==> TouchesTp(signal, tp, bars[k]) && TouchesSl(signal, sl, bars[k]))
    && h.pnlPct == Round4(PnlPct(signal, entry, if h.level.TpHit? then tp else sl))
    && (exists m ::
          h.maxFavorablePct == Round4(m) && (forall b :: b in bars[..k + 1] ==> Favorable(signal, entry, b) <= m)
          && exists b :: b in bars[..k + 1] && Favorable(signal, entry, b) == m)
    && (exists m ::
          h.maxAdversePct == Round4(m) && (forall b :: b in bars[..k + 1] ==> Adverse(signal, entry, b) >= m)
          && exists b :: b in bars[..k + 1] && Adverse(signal, entry, b) == m)
  }

  // ----- later bars ---------------------------------------------------------------------------

  /** Candles with a time are in time order. */
  ghost predicate TimeOrdered(candles: seq<Bar>) {
    forall i, j :: 0 <= i <= j < |candles| && candles[i].ts.Some? && candles[j].ts.Some?
      ==> candles[i].ts.value <= candles[j].ts.value
  }

  lemma {:induction false} InRangeMember(candles: seq<Bar>, from: int, to: int)
    ensures forall b :: b in InRange(candles, from, to) ==> b in candles && b.ts.Some? && from <= b.ts.value <= to
  {
    if candles != [] {
      InRangeMember(candles[1..], from, to);
    }
  }

  lemma {:induction false} InRangeConcat(a: seq<Bar>, b: seq<Bar>, from: int, to: int)
    ensures InRange(a + b, from, to) == InRange(a, from, to) + InRange(b, from, to)
  {
    if a == [] {
      assert a + b == b;
    } else {
      assert (a + b)[1..] == a[1..] + b;
      InRangeConcat(a[1..], b, from, to);
    }
  }

  lemma {:induction false} NothingInRange(candles: seq<Bar>, from: int, to: int)
    requires forall b :: b in candles && b.ts.Some? ==> b.ts.value > to
    ensures InRange(candles, from, to) == []
  {
    if candles != [] {
      NothingInRange(candles[1..], from, to);
    }
  }

  predicate IsPrefix(a: seq<Bar>, b: seq<Bar>) {
    |a| <= |b| && b[..|a|] == a
  }

  /** A later end only adds bars behind the ones there were. */
  lemma {:induction false} InRangeGrows(candles: seq<Bar>, from: int, to: int, later: int)
    requires TimeOrdered(candles) && to <= later
    ensures IsPrefix(InRange(candles, from, to), InRange(candles, from, later))
  {
    if candles != [] {
      InRangeGrows(candles[1..], from, to, later);
      if candles[0].ts.Some? && candles[0].ts.value > to {
        forall b | b in candles[1..] && b.ts.Some? ensures b.ts.value > to {
          var i :| 1 <= i < |candles| && candles[i] == b;
        }
        NothingInRange(candles[1..], from, to);
      }
    }
  }

  lemma DecidedByPrefix(signal: Signal, entry: real, tp: real, sl: real, bars: seq<Bar>, more: seq<Bar>, expired: bool,
                        after: bool)
    requires entry > 0.0 && IsPrefix(bars, more) && FirstTouch(signal, tp, sl, bars) < |bars|
    ensures Judge(signal, entry, tp, sl, more, after) == Judge(signal, entry, tp, sl, bars, expired)
  {
    var k := FirstTouch(signal, tp, sl, bars);
    assert forall i :: 0 <= i <= k ==> more[i] == bars[i];
    FirstTouchIs(signal, tp, sl, more, k);
    assert more[..k + 1] == bars[..k + 1];
  }

  /** A decided verdict is final: with bars appended and a later clock the level, the profit and the
      excursions stay what they were. */
  lemma DecisionIsFinal(p: Prediction, candles: seq<Bar>, later: seq<Bar>, now: int, after: int, horizonBars: int)
    requires TimeOrdered(candles) && now <= after
    requires Evaluated(p, candles, now, horizonBars).Some? && Evaluated(p, candles, now, horizonBars).value.Decided?
    ensures Evaluated(p, candles + later, after, horizonBars) == Evaluated(p, candles, now, horizonBars)
  {
    var t := Tracked(p, horizonBars);
    var expireAt := ExpiresAt(p, horizonBars);
    var from, to, end := p.createdAt, F.Min(now, expireAt), F.Min(after, expireAt);
    InRangeGrows(candles, from, to, end);
    InRangeConcat(candles, later, from, end);
    DecidedByPrefix(p.signal, t.entry.value, t.takeProfit.value, t.stopLoss.value,
                    InRange(candles, from, to), InRange(candles + later, from, end), now >= expireAt,
                    after >= expireAt);
  }

  // ----- excursions ---------------------------------------------------------------------------

  lemma Round4Monotone(x: real, y: real)
    requires x <= y
    ensures Round4(x) <= Round4(y)
  {
    F.RoundMonotone(x * 10000.0, y * 10000.0);
  }

  lemma PercentMonotone(x: real, y: real, entry: real)
    requires entry > 0.0 && x <= y
    ensures Percent(x, entry) <= Percent(y, entry)
    ensures Percent(0.0, entry) == 0.0
  {
  }

  /** A bar that touches a level goes at least as far as the level's own profit. */
  lemma TouchReaches(signal: Signal, entry: real, level: real, b: Bar)
    requires entry > 0.0 && !signal.Neutral?
    ensures (TouchesTp(signal, level, b) && (level > 0.0 || signal.Down?))
            ==> PnlPct(signal, entry, level) <= Favorable(signal, entry, b)
    ensures (TouchesSl(signal, level, b) && (level > 0.0 || signal.Up?))
            ==> Adverse(signal, entry, b) <= PnlPct(signal, entry, level)
  {
    if signal.Up? {
      if level <= b.high { PercentMonotone(level - entry, b.high - entry, entry); }
      if b.low <= level { PercentMonotone(b.low - entry, if level > 0.0 then level - entry else 0.0, entry); }
    } else {
      if b.low <= level { PercentMonotone(if level > 0.0 then entry - level else 0.0, entry - b.low, entry); }
      if level <= b.high { PercentMonotone(entry - b.high, entry - level, entry); }
    }
  }

  /** The profit of a decided prediction lies within its own excursions, when its levels are positive
      or on the side of the entry where a price below zero would be a gain. */
  lemma PnlWithinExcursions(signal: Signal, entry: real, tp: real, sl: real, bars: seq<Bar>)
    requires entry > 0.0 && !signal.Neutral? && FirstTouch(signal, tp, sl, bars) < |bars|
    ensures var h := Settle(signal, entry, tp, sl, bars, FirstTouch(signal, tp, sl, bars));
            && (h.level.TpHit? && (tp > 0.0 || signal.Down?) ==> h.pnlPct <= h.maxFavorablePct)
            && (h.level.SlHit? && (sl > 0.0 || signal.Up?) ==> h.pnlPct >= h.maxAdversePct)
  {
    var k := FirstTouch(signal, tp, sl, bars);
    var b := bars[k];
    assert b == bars[..k + 1][k];
    ExtremesReached(signal, entry, bars[..k + 1]);
    TouchReaches(signal, entry, tp, b);
    TouchReaches(signal, entry, sl, b);
    if TouchesSl(signal, sl, b) && (sl > 0.0 || signal.Up?) {
      Round4Monotone(Lowest(signal, entry, bars[..k + 1]), PnlPct(signal, entry, sl));
    }
    if TouchesTp(signal, tp, b) && (tp > 0.0 || signal.Down?) {
      Round4Monotone(PnlPct(signal, entry, tp), Highest(signal, entry, bars[..k + 1]));
    }
  }

  ghost predicate TpBounded(signal: Signal, tp: real) {
    forall entry, sl, bars :: entry > 0.0 && FirstTouch(signal, tp, sl, bars) < |bars|
      ==> var h := Settle(signal, entry, tp, sl, bars, FirstTouch(signal, tp, sl, bars));
          h.level.TpHit? ==> h.pnlPct <= h.maxFavorablePct
  }

  ghost predicate SlBounded(signal: Signal, sl: real) {
    forall entry, tp, bars :: entry > 0.0 && FirstTouch(signal, tp, sl, bars) < |bars|
      ==> var h := Settle(signal, entry, tp, sl, bars, FirstTouch(signal, tp, sl, bars));
          h.level.SlHit? ==> h.pnlPct >= h.maxAdversePct
  }

  lemma SettleOne(signal: Signal, entry: real, tp: real, sl: real, b: Bar)
    requires entry > 0.0 && Touches(signal, tp, sl, b)
    ensures FirstTouch(signal, tp, sl, [b]) == 0
    ensures var h := Settle(signal, entry, tp, sl, [b], 0);
            h.maxFavorablePct == Round4(Favorable(signal, entry, b))
              && h.maxAdversePct == Round4(Adverse(signal, entry, b))
  {
    assert [b][..1] == [b];
  }

  /** The condition is exact: a level that is not positive counts as no profit, whatever the bars did. */
  lemma BoundsExactly(signal: Signal, level: real)
    requires !signal.Neutral? && level != 0.0
    ensures TpBounded(signal, level) <==> level > 0.0 || signal.Down?
    ensures SlBounded(signal, level) <==> level > 0.0 || signal.Up?
  {
    var b := Bar(None, 1.0, 1.0, 1.0, 1.0);
    if level > 0.0 || signal.Down? {
      forall entry, sl, bars | entry > 0.0 && FirstTouch(signal, level, sl, bars) < |bars|
        ensures var h := Settle(signal, entry, level, sl, bars, FirstTouch(signal, level, sl, bars));
                h.level.TpHit? ==> h.pnlPct <= h.maxFavorablePct
      {
        PnlWithinExcursions(signal, entry, level, sl, bars);
      }
    } else {
      SettleOne(signal, 2.0, level, -1.0, b);
      assert Favorable(signal, 2.0, b) == -50.0;
      assert !TpBounded(signal, level);
    }
    if level > 0.0 || signal.Up? {
      forall entry, tp, bars | entry > 0.0 && FirstTouch(signal, tp, level, bars) < |bars|
        ensures var h := Settle(signal, entry, tp, level, bars, FirstTouch(signal, tp, level, bars));
                h.level.SlHit? ==> h.pnlPct >= h.maxAdversePct
      {
        PnlWithinExcursions(signal, entry, tp, level, bars);
      }
    } else {
      SettleOne(signal, 2.0, -1.0, level, b);
      assert Adverse(signal, 2.0, b) == 50.0;
      assert !SlBounded(signal, level);
    }
  }
}
