/** What the margin gate guarantees about the account after the fill it let through, and what it
    does not look at. */
module GateSoundness {
  import opened Wrappers
  import opened FixedPoint
  import opened PaperTypes
  import opened Prices
  import opened Orders
  import opened Loading
  import opened Margin
  import opened Engine
  import opened Accounts
  import Fills

  lemma {:induction false} SameOrderMargin(a: seq<Order>, b: seq<Order>, ratio: real)
    requires |a| == |b| && forall i :: 0 <= i < |a| ==> OrderMarginOf(a[i], ratio) == OrderMarginOf(b[i], ratio)
    ensures OrderMargin(a, ratio) == OrderMargin(b, ratio)
  {
    if a != [] {
      SameOrderMargin(a[1..], b[1..], ratio);
    }
  }

  lemma {:induction false} OrderMarginUpdate(os: seq<Order>, i: nat, o: Order, ratio: real)
    requires i < |os|
    ensures OrderMargin(os[i := o], ratio)
         == OrderMargin(os, ratio) - OrderMarginOf(os[i], ratio) + OrderMarginOf(o, ratio)
  {
    if i == 0 {
      assert os[i := o][1..] == os[1..];
    } else {
      assert os[i := o][1..] == os[1..][i - 1 := o];
      OrderMarginUpdate(os[1..], i - 1, o, ratio);
    }
  }

  lemma ImaginedPositions(ps: seq<Position>, symbol: Symbol, next: Option<Position>)
    requires forall p :: p in ps ==> PositionOk(p, 1) && ExitsPositive(p)
    requires NextOk(symbol, next, 1)
    ensures CoercePositions(Replace(ps, symbol, next)) == Replace(ps, symbol, next)
  {
    var r := Replace(ps, symbol, next);
    forall p | p in r ensures PositionOk(p, 1) && CoercePosition(p) == p {
      assert p in Without(ps, symbol) || p in AsList(next);
    }
    CoercePositionsKeeps(r);
  }

  lemma ImaginedOrders(os: seq<Order>, ratio: real)
    requires |os| <= MAX_ORDERS && forall o :: o in os ==> OrderOk(o, 1) && o.symbol != ""
    ensures OrderMargin(Newest(CoerceOrders(os)), ratio) == OrderMargin(os, ratio)
  {
    CoerceOrdersKeeps(os);
    forall i | 0 <= i < |os| ensures OrderMarginOf(CoerceOrder(os[i]), ratio) == OrderMarginOf(os[i], ratio) {
      assert OrderOk(os[i], 1);
    }
    SameOrderMargin(CoerceOrders(os), os, ratio);
  }

  /** The account the gate values is the real one with the fee paid, the position replaced, the
      realized amount ignored and a negative balance taken for zero. */
  lemma ImaginedAccount(s: State, symbol: Symbol, next: Option<Position>, feeUsd: int, ratio: real)
    requires LoadedOk(s, 1) && NextOk(symbol, next, 1)
    ensures var im := Imagined(s, symbol, next, feeUsd);
            && im.positions == Replace(s.positions, symbol, next)
            && im.balanceUsd == Max(0, s.balanceUsd - feeUsd)
            && OrderMargin(im.orders, ratio) == OrderMargin(s.orders, ratio)
  {
    ImaginedPositions(s.positions, symbol, next);
    ImaginedOrders(s.orders, ratio);
  }

  /** By how much the gate overestimates: it ignores the realized amount and forgives a negative balance. */
  function Overlooked(s: State, fill: FillResult): int {
    fill.realizedPnl + Min(0, s.balanceUsd - fill.feeUsd)
  }

  /** The valuation the gate made of a fill. */
  function Judged(s: State, symbol: Symbol, fill: FillResult, price: int, policy: Policy): Snapshot {
    var im := Imagined(s, symbol, fill.next, fill.feeUsd);
    Valuation(im, GateMarks(im.positions, symbol, price), policy)
  }

  /** The valuation of a balance and positions at the gate's marks, beside a pledged amount. */
  function AtGate(balance: int, ps: seq<Position>, pledged: real, symbol: Symbol, price: int,
                  policy: Policy): Snapshot {
    var marks := GateMarks(ps, symbol, price);
    Appraise(balance, Unrealized(ps, marks), Exposure(ps, marks), pledged, policy)
  }

  /** The valuation of the account the fill really leaves, with the orders it leaves, at the gate's marks. */
  function Left(s: State, symbol: Symbol, fill: FillResult, price: int, os: seq<Order>, policy: Policy): Snapshot {
    var r := Book(s, symbol, fill, price).(orders := os);
    Valuation(r, GateMarks(r.positions, symbol, price), policy)
  }

  /** The valuation the gate made, from its four sums. */
  lemma JudgedIs(s: State, symbol: Symbol, fill: FillResult, price: int, policy: Policy)
    requires LoadedOk(s, 1) && NextOk(symbol, fill.next, 1)
    ensures Judged(s, symbol, fill, price, policy)
         == AtGate(Max(0, s.balanceUsd - fill.feeUsd), Replace(s.positions, symbol, fill.next),
                   OrderMargin(s.orders, policy.initialMarginRatio), symbol, price, policy)
  {
    ImaginedAccount(s, symbol, fill.next, fill.feeUsd, policy.initialMarginRatio);
  }

  /** The valuation a fill leaves, from its four sums. */
  lemma LeftIs(s: State, symbol: Symbol, fill: FillResult, price: int, os: seq<Order>, policy: Policy)
    ensures Left(s, symbol, fill, price, os, policy)
         == AtGate(s.balanceUsd + fill.realizedPnl - fill.feeUsd, Replace(s.positions, symbol, fill.next),
                   OrderMargin(os, policy.initialMarginRatio), symbol, price, policy)
  {
  }

  /** Funds beside an exposure and pledges: more than -1.5 units are left after the initial margin, which
      rounds to -1 or more, and more than a unit after the maintenance margin. */
  predicate Clears(funds: int, exposure: real, pledged: real, policy: Policy) {
    && funds as real - MarginOn(exposure, policy.initialMarginRatio) - pledged > -1.5
    && funds as real > MarginOn(exposure, policy.maintenanceMarginRatio) + 1.0
  }

  lemma RoundAbove(x: real)
    ensures Round(x) >= -1 <==> x > -1.5
  {
  }

  lemma PassesWhenClear(balance: int, profit: int, exposure: real, pledged: real, policy: Policy)
    ensures Passes(Appraise(balance, profit, exposure, pledged, policy))
            <==> Clears(balance + profit, exposure, pledged, policy)
  {
    RoundAbove((balance + profit) as real - MarginOn(exposure, policy.initialMarginRatio) - pledged);
  }

  /** Open profit and exposure of positions at the gate's marks. */
  function GateProfit(ps: seq<Position>, symbol: Symbol, price: int): int {
    Unrealized(ps, GateMarks(ps, symbol, price))
  }

  function GateExposure(ps: seq<Position>, symbol: Symbol, price: int): real {
    Exposure(ps, GateMarks(ps, symbol, price))
  }

  lemma AtGateClears(balance: int, ps: seq<Position>, pledged: real, symbol: Symbol, price: int, policy: Policy)
    ensures Passes(AtGate(balance, ps, pledged, symbol, price, policy))
            <==> Clears(balance + GateProfit(ps, symbol, price), GateExposure(ps, symbol, price), pledged, policy)
  {
    PassesWhenClear(balance, GateProfit(ps, symbol, price), GateExposure(ps, symbol, price), pledged, policy);
  }

  lemma AppraiseGap(balance: int, gap: int, unrealized: int, exposure: real, more: real, less: real, policy: Policy)
    requires less <= more
    ensures var v := Appraise(balance, unrealized, exposure, more, policy);
            var u := Appraise(balance + gap, unrealized, exposure, less, policy);
            && u.equity == v.equity + gap
            && u.availableMargin >= v.availableMargin + gap - 1
            && (gap >= 0 ==> u.availableMargin >= v.availableMargin + gap)
            && (gap >= 0 && Passes(v) ==> Passes(u))
  {
    var x := (balance + unrealized) as real - exposure * policy.initialMarginRatio - more;
    RoundShifted(x, gap, (balance + gap + unrealized) as real - exposure * policy.initialMarginRatio - less);
  }

  lemma RoundShifted(x: real, n: int, y: real)
    requires y >= x + n as real
    ensures Round(y) >= Round(x) + n - 1
    ensures n >= 0 ==> Round(y) >= Round(x) + n
  {
    RoundMonotone(x + n as real, y);
  }

  lemma OverlookedIsTheGap(s: State, fill: FillResult)
    ensures Max(0, s.balanceUsd - fill.feeUsd) + Overlooked(s, fill) == s.balanceUsd + fill.realizedPnl - fill.feeUsd
  {
  }

  lemma LeftIsFrom(s: State, symbol: Symbol, fill: FillResult, price: int, os: seq<Order>, balance: int, policy: Policy)
    requires balance == s.balanceUsd + fill.realizedPnl - fill.feeUsd
    ensures Left(s, symbol, fill, price, os, policy)
         == AtGate(balance, Replace(s.positions, symbol, fill.next), OrderMargin(os, policy.initialMarginRatio), symbol,
                   price, policy)
  {
    LeftIs(s, symbol, fill, price, os, policy);
  }

  /** The two valuations differ in the balance, by exactly what was overlooked, and in the pledges of
      the orders, and in nothing else. */
  lemma GateOverlooks(s: State, symbol: Symbol, fill: FillResult, price: int, os: seq<Order>, policy: Policy)
    requires LoadedOk(s, 1) && NextOk(symbol, fill.next, 1)
    ensures var ratio, ps := policy.initialMarginRatio, Replace(s.positions, symbol, fill.next);
            var balance := Max(0, s.balanceUsd - fill.feeUsd);
            && Judged(s, symbol, fill, price, policy)
               == AtGate(balance, ps, OrderMargin(s.orders, ratio), symbol, price, policy)
            && Left(s, symbol, fill, price, os, policy)
               == AtGate(balance + Overlooked(s, fill), ps, OrderMargin(os, ratio), symbol, price, policy)
  {
    OverlookedIsTheGap(s, fill);
    JudgedIs(s, symbol, fill, price, policy);
    LeftIsFrom(s, symbol, fill, price, os, Max(0, s.balanceUsd - fill.feeUsd) + Overlooked(s, fill), policy);
  }

  /** So the equity differs by exactly that, and a fill that passed leaves an account that passes when
      no loss was overlooked. */
  lemma GateGap(s: State, symbol: Symbol, fill: FillResult, price: int, os: seq<Order>, policy: Policy)
    requires LoadedOk(s, 1) && NextOk(symbol, fill.next, 1)
    requires OrderMargin(os, policy.initialMarginRatio) <= OrderMargin(s.orders, policy.initialMarginRatio)
    ensures var v := Judged(s, symbol, fill, price, policy);
            var u := Left(s, symbol, fill, price, os, policy);
            && u.equity == v.equity + Overlooked(s, fill)
            && u.availableMargin >= v.availableMargin + Overlooked(s, fill) - 1
            && (Overlooked(s, fill) >= 0 && Passes(v) ==> Passes(u))
  {
    var ratio := policy.initialMarginRatio;
    ImaginedAccount(s, symbol, fill.next, fill.feeUsd, ratio);
    var ps := Replace(s.positions, symbol, fill.next);
    var marks := GateMarks(ps, symbol, price);
    AppraiseGap(Max(0, s.balanceUsd - fill.feeUsd), Overlooked(s, fill), Unrealized(ps, marks), Exposure(ps, marks),
                OrderMargin(s.orders, ratio), OrderMargin(os, ratio), policy);
    LeftIs(s, symbol, fill, price, os, policy);
  }

  /** A fill that increases exposure and got through the gate was judged to pass. */
  lemma AcceptedWasJudged(s: State, symbol: Symbol, qty: int, side: Side, price: int, maker: bool,
                          takeProfit: Attached, stopLoss: Attached, now: int, policy: Policy)
    ensures var fill := OrderFill(s, symbol, qty, side, false, price, maker, takeProfit, stopLoss, now, policy);
            fill.filledQty > 0 && Increases(Find(s.positions, symbol), fill.next) ==>
              Passes(Judged(s, symbol, fill, price, policy))
  {
  }

  predicate Flips(current: Option<Position>, next: Option<Position>) {
    Sign(Fills.Signed(current)) == -Sign(Fills.Signed(next)) && current.Some? && next.Some?
  }

  /** Increasing without flipping realizes nothing. */
  lemma IncreaseRealizesNothing(s: State, symbol: Symbol, qty: int, side: Side, price: int, maker: bool,
                                takeProfit: Attached, stopLoss: Attached, now: int, policy: Policy)
    requires LoadedOk(s, 1) && qty > 0
    ensures var fill := OrderFill(s, symbol, qty, side, false, price, maker, takeProfit, stopLoss, now, policy);
            var current := Find(s.positions, symbol);
            fill.filledQty > 0 && Increases(current, fill.next) && !Flips(current, fill.next) ==> fill.realizedPnl == 0
  {
    RoundFixesUnits(0);
    var current := Find(s.positions, symbol);
    assert Fills.Held(current);
    Fills.FillKeepsHeld(current, symbol, qty, side, false, price, now);
  }

  lemma RecordReleasesMargin(o: Order, qty: int, price: int, feeUsd: int, ratio: real)
    requires OrderOk(o, 1) && o.status.Open? && !o.reduceOnly && 0 < qty <= o.remainingQty && ratio >= 0.0
    ensures OrderMarginOf(RecordFill(o, qty, price, feeUsd), ratio) <= OrderMarginOf(o, ratio)
  {
    var n := RecordFill(o, qty, price, feeUsd);
    assert n.price == o.price && 0 <= Remaining(n) <= Remaining(o);
    ValueAdds(Remaining(n), Remaining(o) - Remaining(n), o.price);
    ValueNonNegative(Remaining(o) - Remaining(n), o.price);
    ValueNonNegative(Remaining(n), o.price);
    var less := Value(Remaining(n), o.price);
    var more := Value(Remaining(o), o.price);
    Pledged(less, more, ratio);
  }

  lemma Pledged(less: real, more: real, ratio: real)
    requires less <= more && ratio >= 0.0
    ensures less * ratio <= more * ratio
  {
  }

  /** The order's fill is accepted at a price above zero and increases exposure; no loss is overlooked in judging it. */
  predicate AcceptedIncrease(s: State, o: Order, marks: Marks, now: int, policy: Policy)
    requires Touched(o, marks, policy)
  {
    var fill := RestingFill(s, o, marks[o.symbol], now, policy);
    && fill.filledQty > 0 && Increases(Find(s.positions, o.symbol), fill.next)
    && RestingPrice(o, marks[o.symbol], policy) > 0 && Overlooked(s, fill) >= 0
  }

  lemma AcceptedTouchPasses(w: Progress, i: nat, marks: Marks, now: int, policy: Policy)
    requires i < |w.state.orders| && LoadedOk(w.state, 1) && MarksOk(marks) && FeesOk(policy) && MarginsOk(policy)
    requires Touched(w.state.orders[i], marks, policy) && !w.state.orders[i].reduceOnly
    requires AcceptedIncrease(w.state, w.state.orders[i], marks, now, policy)
    ensures var o := w.state.orders[i];
            var r := TouchAt(w, i, marks, now, policy).state;
            Passes(Valuation(r, GateMarks(r.positions, o.symbol, RestingPrice(o, marks[o.symbol], policy)), policy))
  {
    var s := w.state;
    var o := s.orders[i];
    assert o in s.orders;
    var market := marks[o.symbol];
    var price := RestingPrice(o, market, policy);
    var fill := RestingFill(s, o, market, now, policy);
    RestingFillFits(s, o, market, now, policy);
    AcceptedWasJudged(s, o.symbol, TouchQty(o, policy), o.side, price, o.kind.Limit? && o.trigger.None?,
                      Set(o.takeProfit), Set(o.stopLoss), now, policy);
    var recorded := RecordFill(o, fill.filledQty, price, fill.feeUsd);
    RecordReleasesMargin(o, fill.filledQty, price, fill.feeUsd, policy.initialMarginRatio);
    OrderMarginUpdate(s.orders, i, recorded, policy.initialMarginRatio);
    GateGap(s, o.symbol, fill, price, s.orders[i := recorded], policy);
    TouchLeaves(w, i, marks, now, policy);
  }

  /** A resting order's fill that the gate let through leaves an account that itself passes the gate's
      test, at the gate's marks, whenever the gate overlooked no loss. */
  lemma RestingGateSound(w: Progress, i: nat, marks: Marks, now: int, policy: Policy)
    requires i < |w.state.orders| && LoadedOk(w.state, 1) && MarksOk(marks) && FeesOk(policy) && MarginsOk(policy)
    requires Touched(w.state.orders[i], marks, policy) && !w.state.orders[i].reduceOnly
    ensures var o := w.state.orders[i];
            var r := TouchAt(w, i, marks, now, policy).state;
            AcceptedIncrease(w.state, o, marks, now, policy)
            ==> Passes(Valuation(r, GateMarks(r.positions, o.symbol, RestingPrice(o, marks[o.symbol], policy)), policy))
  {
    if AcceptedIncrease(w.state, w.state.orders[i], marks, now, policy) {
      AcceptedTouchPasses(w, i, marks, now, policy);
    }
  }

  lemma RestingFillFits(s: State, o: Order, market: int, now: int, policy: Policy)
    requires LoadedOk(s, 1) && FeesOk(policy) && OrderOk(o, 1) && o.symbol != "" && o.status.Open?
    requires RestingPrice(o, market, policy) > 0
    ensures var fill := RestingFill(s, o, market, now, policy);
            && fill.filledQty <= o.remainingQty
            && (fill.filledQty > 0 ==> NextOk(o.symbol, fill.next, 1))
  {
    TouchLeavesMoreThanOne(o, policy);
    OrderFillSound(s, o.symbol, TouchQty(o, policy), o.side, o.reduceOnly, RestingPrice(o, market, policy),
                   o.kind.Limit? && o.trigger.None?, Set(o.takeProfit), Set(o.stopLoss), now, policy, 1);
  }

  lemma TouchLeaves(w: Progress, i: nat, marks: Marks, now: int, policy: Policy)
    requires i < |w.state.orders|
    ensures var o := w.state.orders[i];
            Touched(o, marks, policy) ==>
              var price := RestingPrice(o, marks[o.symbol], policy);
              var fill := RestingFill(w.state, o, marks[o.symbol], now, policy);
              fill.filledQty > 0 ==>
                TouchAt(w, i, marks, now, policy).state
                  == Book(w.state, o.symbol, fill, price)
                     .(orders := w.state.orders[i := RecordFill(o, fill.filledQty, price, fill.feeUsd)])
  {
  }

  /** In particular a fill that does not flip, on an account that can pay its fee. */
  lemma PlainIncreaseOverlooksNothing(s: State, o: Order, market: int, now: int, policy: Policy)
    requires LoadedOk(s, 1) && QuantitiesOk(o) && o.status.Open? && !o.reduceOnly
    ensures var fill := RestingFill(s, o, market, now, policy);
            var current := Find(s.positions, o.symbol);
            (fill.filledQty > 0 && Increases(current, fill.next) && !Flips(current, fill.next)
             && s.balanceUsd >= fill.feeUsd
             ==> Overlooked(s, fill) == 0)
  {
    TouchLeavesMoreThanOne(o, policy);
    IncreaseRealizesNothing(s, o.symbol, TouchQty(o, policy), o.side, RestingPrice(o, market, policy),
                            o.kind.Limit? && o.trigger.None?, Set(o.takeProfit), Set(o.stopLoss), now, policy);
  }

  // ----- where the gate looks away ------------------------------------------------------------

  const COIN: int := 100000000

  function FreePolicy(): Policy {
    Policy(0.0, 0.0, 0.0, 0.0, 0.0, 0.5, 0.1, 0.05, false, 0.0, 60)
  }

  /** An untouched stop-market order at a trigger. */
  function StopOrder(side: Side, qty: int, trigger: int): Order {
    Order(1, "BTCUSDT", side, Kind.Market, qty, trigger, false, Some(trigger), None, None, Open, qty, 0, qty, None, 0,
          0)
  }

  /** Ten coins long from 100 on a balance of 510, and a stop to sell twenty-one at 50 (prices and
      balance in units). */
  function FlippingAccount(): State {
    State(510, 0, 0, 0, 0, 0, 2,
          [Position("BTCUSDT", Long, 10 * COIN, 100, None, None, Some(0), 0)],
          [StopOrder(Sell, 21 * COIN, 50)])
  }

  /** Short eleven coins from 50: what the flip leaves. */
  function FlippedPosition(): Position {
    Position("BTCUSDT", Short, 11 * COIN, 50, None, None, Some(0), 0)
  }

  lemma FlipFills()
    ensures Fills.ApplyFill(Some(FlippingAccount().positions[0]), "BTCUSDT", 21 * COIN, Sell, false, 50, 0)
         == Fills.Outcome(21 * COIN, -500, Some(FlippedPosition()))
  {
    RoundFixesUnits(50);
    assert Value(10 * COIN, -50) == -500.0;
    RoundFixesUnits(-500);
  }

  lemma FlippedSums()
    ensures var ps := [FlippedPosition()];
            var marks := GateMarks(ps, "BTCUSDT", 50);
            Unrealized(ps, marks) == 0 && Exposure(ps, marks) == 550.0
  {
    var p := FlippedPosition();
    var marks := GateMarks([p], "BTCUSDT", 50);
    assert GateMarks([p][..0], "BTCUSDT", 50) == map[];
    assert marks == map["BTCUSDT" := 50];
    assert Unrealized([p][1..], marks) == 0 && Exposure([p][1..], marks) == 0.0;
    RoundFixesUnits(0);
    assert Value(11 * COIN, 50) == 550.0;
  }

  lemma FlippingAccountOk()
    ensures var s := FlippingAccount();
            && LoadedOk(s, 1) && Find(s.positions, "BTCUSDT") == Some(s.positions[0])
            && Replace(s.positions, "BTCUSDT", Some(FlippedPosition())) == [FlippedPosition()]
            && OrderMargin(s.orders, 0.1) == 105.0
            && RestingPrice(s.orders[0], 50, FreePolicy()) == 50
  {
    var s := FlippingAccount();
    assert Without(s.positions[1..], "BTCUSDT") == [];
    assert Value(21 * COIN, 50) == 1050.0;
    assert OrderMargin(s.orders[1..], 0.1) == 0.0;
    RoundFixesUnits(50);
  }

  /** The gate's view of the flip. */
  lemma FlipJudged(fill: FillResult)
    requires fill == FillResult(21 * COIN, -500, 0, Some(FlippedPosition()))
    ensures Passes(Judged(FlippingAccount(), "BTCUSDT", fill, 50, FreePolicy()))
  {
    var s := FlippingAccount();
    FlippingAccountOk();
    FlippedSums();
    ImaginedAccount(s, "BTCUSDT", fill.next, 0, 0.1);
    assert Judged(s, "BTCUSDT", fill, 50, FreePolicy()) == Appraise(510, 0, 550.0, 105.0, FreePolicy());
  }

  /** The gate's decision, in terms of the fill it is asked about. */
  lemma AcceptedWhenJudged(s: State, symbol: Symbol, qty: int, side: Side, price: int, maker: bool,
                           takeProfit: Attached,
                           stopLoss: Attached, out: Fills.Outcome, now: int, policy: Policy)
    requires out == Fills.ApplyFill(Find(s.positions, symbol), symbol, qty, side, false, price, now)
    requires out.filledQty > 0 && out.next.Some? && Fee(Value(out.filledQty, price), maker, policy) == 0
    requires Attach(out.next.value, takeProfit, stopLoss) == out.next.value
    requires Passes(Judged(s, symbol, FillResult(out.filledQty, out.realizedPnl, 0, out.next), price, policy))
    ensures OrderFill(s, symbol, qty, side, false, price, maker, takeProfit, stopLoss, now, policy)
         == FillResult(out.filledQty, out.realizedPnl, 0, out.next)
  {
  }

  lemma FreeFee(notional: real, maker: bool)
    ensures Fee(notional, maker, FreePolicy()) == 0
  {
    RoundFixesUnits(0);
  }

  lemma FlipIsFilled()
    ensures var s := FlippingAccount();
            RestingFill(s, s.orders[0], 50, 0, FreePolicy()) == FillResult(21 * COIN, -500, 0, Some(FlippedPosition()))
  {
    FlippingAccountOk();
    FlipFills();
    FlipJudged(FillResult(21 * COIN, -500, 0, Some(FlippedPosition())));
    FreeFee(Value(21 * COIN, 50), false);
    AcceptedWhenJudged(FlippingAccount(), "BTCUSDT", 21 * COIN, Sell, 50, false, Set(None), Set(None),
                       Fills.Outcome(21 * COIN, -500, Some(FlippedPosition())), 0, FreePolicy());
  }

  /** What one turn of the loop over resting orders leaves of an account with a single order, by the
      sums of its valuation. */
  lemma TouchedAlone(s: State, market: int, fill: FillResult, profit: int, exposure: real, policy: Policy)
    requires |s.orders| == 1 && Touched(s.orders[0], map["BTCUSDT" := market], policy)
    requires s.orders[0].symbol == "BTCUSDT"
    requires RestingPrice(s.orders[0], market, policy) == market && fill.filledQty > 0
    requires RestingFill(s, s.orders[0], market, 0, policy) == fill
    requires RecordFill(s.orders[0], fill.filledQty, market, fill.feeUsd).status.Filled?
    requires var ps := Replace(s.positions, "BTCUSDT", fill.next);
             && GateMarks(ps, "BTCUSDT", market) == map["BTCUSDT" := market]
             && Unrealized(ps, map["BTCUSDT" := market]) == profit && Exposure(ps, map["BTCUSDT" := market]) == exposure
    ensures var r := TouchAt(Progress(s, false), 0, map["BTCUSDT" := market], 0, policy).state;
            && r.realizedPnlUsd == s.realizedPnlUsd + fill.realizedPnl && r.orders[0].status.Filled?
            && Valuation(r, map["BTCUSDT" := market], policy)
               == Appraise(s.balanceUsd + fill.realizedPnl - fill.feeUsd, profit, exposure, 0.0, policy)
  {
    var recorded := RecordFill(s.orders[0], fill.filledQty, market, fill.feeUsd);
    TouchLeaves(Progress(s, false), 0, map["BTCUSDT" := market], 0, policy);
    assert s.orders[0 := recorded] == [recorded] && [recorded][1..] == [];
    LeftIs(s, "BTCUSDT", fill, market, [recorded], policy);
  }

  /** The gate values the flip without its loss of 500 and lets it through; the turn of the pass that
      fills the stop leaves an account due for liquidation at that very mark. */
  lemma FlipEscapesTheGate()
    ensures LoadedOk(FlippingAccount(), 1)
    ensures var r := TouchAt(Progress(FlippingAccount(), false), 0, map["BTCUSDT" := 50], 0, FreePolicy()).state;
            && r.realizedPnlUsd == -500 && r.orders[0].status.Filled?
            && Valuation(r, map["BTCUSDT" := 50], FreePolicy()).status.Liquidation?
  {
    var s := FlippingAccount();
    FlippingAccountOk();
    FlipIsFilled();
    FlippedSums();
    assert GateMarks([FlippedPosition()][..0], "BTCUSDT", 50) == map[];
    TouchedAlone(s, 50, FillResult(21 * COIN, -500, 0, Some(FlippedPosition())), 0, 550.0, FreePolicy());
  }

  /** A new order's immediate fill is judged without its own remainder: what passes is the account
      with the orders it had before. */
  lemma PlacedGateSound(s: State, o: Order, market: int, now: int, policy: Policy)
    requires LoadedOk(s, 1) && FeesOk(policy) && OrderOk(o, 1) && o.status.Open? && o.symbol != "" && !o.reduceOnly
    ensures var fill := PlacedFill(s, o, market, now, policy);
            var price := PlacedPrice(o, market, policy);
            fill.filledQty > 0 && price > 0 && Increases(Find(s.positions, o.symbol), fill.next)
              && Overlooked(s, fill) >= 0
            ==> Passes(Left(s, o.symbol, fill, price, s.orders, policy))
  {
    var price := PlacedPrice(o, market, policy);
    TouchLeavesMoreThanOne(o, policy);
    if price > 0 {
      OrderFillSound(s, o.symbol, TouchQty(o, policy), o.side, o.reduceOnly, price, o.kind.Limit? && o.trigger.None?,
                     AttachOptional(o.takeProfit), AttachOptional(o.stopLoss), now, policy, 1);
      AcceptedWasJudged(s, o.symbol, TouchQty(o, policy), o.side, price, o.kind.Limit? && o.trigger.None?,
                        AttachOptional(o.takeProfit), AttachOptional(o.stopLoss), now, policy);
      if PlacedFill(s, o, market, now, policy).filledQty > 0 {
        GateGap(s, o.symbol, PlacedFill(s, o, market, now, policy), price, s.orders, policy);
      }
    }
  }

  lemma ListedPledges(rest: Order, os: seq<Order>, ratio: real)
    requires |os| < MAX_ORDERS
    ensures OrderMargin(Newest([rest] + os), ratio) == OrderMargin(os, ratio) + OrderMarginOf(rest, ratio)
  {
    assert ([rest] + os)[1..] == os;
  }

  lemma LeftIsWith(s: State, symbol: Symbol, fill: FillResult, price: int, os: seq<Order>, balance: int, pledged: real,
                   policy: Policy)
    requires balance == s.balanceUsd + fill.realizedPnl - fill.feeUsd
    requires pledged == OrderMargin(os, policy.initialMarginRatio)
    ensures Left(s, symbol, fill, price, os, policy)
         == AtGate(balance, Replace(s.positions, symbol, fill.next), pledged, symbol, price, policy)
  {
    LeftIsFrom(s, symbol, fill, price, os, balance, policy);
  }

  /** The remainder then pledges margin of its own, unjudged: the margin left is exactly the judged
      account's with that pledge taken off before rounding, and the account passes exactly when the
      funds clear it; PlacedGate says for which orders they always do. */
  lemma RemainderPledges(s: State, symbol: Symbol, fill: FillResult, price: int, rest: Order, policy: Policy)
    returns (balance: int, pledged: real)
    requires |s.orders| < MAX_ORDERS
    ensures balance == s.balanceUsd + fill.realizedPnl - fill.feeUsd
    ensures pledged == OrderMargin(s.orders, policy.initialMarginRatio) + OrderMarginOf(rest, policy.initialMarginRatio)
    ensures var ps := Replace(s.positions, symbol, fill.next);
            var left := Left(s, symbol, fill, price, Newest([rest] + s.orders), policy);
            && left == AtGate(balance, ps, pledged, symbol, price, policy)
            && (Passes(left) <==>
                  Clears(balance + GateProfit(ps, symbol, price), GateExposure(ps, symbol, price), pledged, policy))
  {
    balance := s.balanceUsd + fill.realizedPnl - fill.feeUsd;
    pledged := OrderMargin(s.orders, policy.initialMarginRatio) + OrderMarginOf(rest, policy.initialMarginRatio);
    ListedPledges(rest, s.orders, policy.initialMarginRatio);
    LeftIsWith(s, symbol, fill, price, Newest([rest] + s.orders), balance, pledged, policy);
    AtGateClears(balance, Replace(s.positions, symbol, fill.next), pledged, symbol, price, policy);
  }

  function BoughtPosition(): Position {
    Position("BTCUSDT", Long, 5 * COIN, 500, None, None, Some(0), 0)
  }

  function SmallAccount(): State {
    State(300, 0, 0, 0, 0, 0, 1, [], [])
  }

  /** An order for ten coins at 500 with five of them filled. */
  function HalfFilled(): Order {
    Order(1, "BTCUSDT", Buy, Limit, 5 * COIN, 500, false, None, None, None, Open, 10 * COIN, 5 * COIN, 5 * COIN,
          Some(500), 0, 1)
  }

  lemma BoughtSums()
    ensures var ps := Replace([], "BTCUSDT", Some(BoughtPosition()));
            var marks := GateMarks(ps, "BTCUSDT", 500);
            ps == [BoughtPosition()] && Unrealized(ps, marks) == 0 && Exposure(ps, marks) == 2500.0
  {
    var p := BoughtPosition();
    var marks := GateMarks([p], "BTCUSDT", 500);
    assert GateMarks([p][..0], "BTCUSDT", 500) == map[];
    assert marks == map["BTCUSDT" := 500];
    RoundFixesUnits(0);
    assert ExposureOf(p, marks) == 2500.0 && UnrealizedOf(p, marks) == 0;
    assert Unrealized([p][1..], marks) == 0 && Exposure([p][1..], marks) == 0.0;
  }

  lemma BuyIsAccepted(s: State)
    requires s == Numbered(SmallAccount())
    ensures OrderFill(s, "BTCUSDT", 5 * COIN, Buy, false, 500, true, Keep, Keep, 0, FreePolicy())
         == FillResult(5 * COIN, 0, 0, Some(BoughtPosition()))
  {
    var fill := FillResult(5 * COIN, 0, 0, Some(BoughtPosition()));
    BoughtSums();
    ImaginedAccount(s, "BTCUSDT", fill.next, 0, 0.1);
    assert Judged(s, "BTCUSDT", fill, 500, FreePolicy()) == Appraise(300, 0, 2500.0, 0.0, FreePolicy());
    FreeFee(Value(5 * COIN, 500), true);
    RoundFixesUnits(500);
    RoundFixesUnits(0);
    AcceptedWhenJudged(s, "BTCUSDT", 5 * COIN, Buy, 500, true, Keep, Keep,
                       Fills.Outcome(5 * COIN, 0, Some(BoughtPosition())), 0, FreePolicy());
  }

  /** A limit order to buy ten coins at 500. */
  function TenCoins(): Ticket {
    Ticket("BTCUSDT", Buy, Limit, 10 * COIN, Some(500), None, None, None, false)
  }

  /** Placed at its price, half of it fills and the order is listed with the other half. */
  lemma HalfIsFilled()
    ensures var s := SmallAccount();
            var o := PlacedOrder(s, TenCoins(), 500);
            && Immediate(o, 500) && PlacedPrice(o, 500, FreePolicy()) == 500
            && TouchQty(o, FreePolicy()) == 5 * COIN
            && RecordFill(o, 5 * COIN, 500, 0) == HalfFilled() && Settle(HalfFilled()) == HalfFilled()
  {
    RoundFixesUnits(5 * COIN);
    RoundFixesUnits(500);
    assert (10 * COIN) as real * 0.5 == (5 * COIN) as real;
    assert (0 * 0 + 500 * (5 * COIN)) as real / (5 * COIN) as real == 500.0;
  }

  /** What is listed of it: the position, the half-filled order, and the balance untouched. */
  function HalfListed(): State {
    State(300, 0, 0, 0, 2500, 0, 2, [BoughtPosition()], [HalfFilled()])
  }

  lemma HalfIsListed()
    ensures Executed(Numbered(SmallAccount()), PlacedOrder(SmallAccount(), TenCoins(), 500),
                     FillResult(5 * COIN, 0, 0, Some(BoughtPosition())), 500) == HalfListed()
  {
    HalfIsFilled();
    assert Value(5 * COIN, 500) == 2500.0;
    RoundFixesUnits(2500);
    assert Replace([], "BTCUSDT", Some(BoughtPosition())) == [BoughtPosition()];
    assert Newest([HalfFilled()] + []) == [HalfFilled()];
  }

  lemma HalfListedValue()
    ensures Valuation(HalfListed(), map["BTCUSDT" := 500], FreePolicy())
         == Appraise(300, 0, 2500.0, 250.0, FreePolicy())
  {
    BoughtSums();
    assert GateMarks([BoughtPosition()][..0], "BTCUSDT", 500) == map[];
    assert OrderMarginOf(HalfFilled(), 0.1) == 250.0 && OrderMargin([HalfFilled()][1..], 0.1) == 0.0;
  }

  /** A balance of 300 places an order for ten coins at 500: five fill with 250 of margin, which the
      gate passes; the five that stay listed then pledge another 250, and 200 of margin are missing. */
  lemma RemainderEscapesTheGate()
    ensures LoadedOk(SmallAccount(), 1)
    ensures var r := Place(SmallAccount(), TenCoins(), 500, 0, FreePolicy());
            && r.Ok? && r.value.orders == [HalfFilled()] && r.value.positions == [BoughtPosition()]
            && Valuation(r.value, map["BTCUSDT" := 500], FreePolicy()).availableMargin == -200
  {
    var s := SmallAccount();
    HalfIsFilled();
    BuyIsAccepted(Numbered(s));
    HalfIsListed();
    HalfListedValue();
    RoundFixesUnits(-200);
    PlacesAndStays(s, TenCoins(), 500, FillResult(5 * COIN, 0, 0, Some(BoughtPosition())), HalfListed(), FreePolicy());
  }

  /** Placing an order that executes and leaves nothing to liquidate. */
  lemma PlacesAndStays(s: State, t: Ticket, market: int, fill: FillResult, r: State, policy: Policy)
    requires var o := PlacedOrder(s, t, market);
             && Immediate(o, market) && PlacedFill(Numbered(s), o, market, 0, policy) == fill && fill.filledQty > 0
             && Executed(Numbered(s), o, fill, PlacedPrice(o, market, policy)) == r
             && !Valuation(r, map[o.symbol := market], policy).status.Liquidation?
    ensures Place(s, t, market, 0, policy) == Ok(r)
  {
  }

  // ----- a fee that cannot be paid ------------------------------------------------------------

  /** Ten coins long from 100 on a debt of 900, and a stop to buy one more at 200. */
  function IndebtedAccount(): State {
    State(-900, 0, 0, 0, 0, 0, 2,
          [Position("BTCUSDT", Long, 10 * COIN, 100, None, None, Some(0), 0)],
          [StopOrder(Buy, COIN, 200)])
  }

  function ElevenCoins(): Position {
    Position("BTCUSDT", Long, 11 * COIN, 109, None, None, Some(0), 0)
  }

  lemma IndebtedFills()
    ensures Fills.ApplyFill(Some(IndebtedAccount().positions[0]), "BTCUSDT", COIN, Buy, false, 200, 0)
         == Fills.Outcome(COIN, 0, Some(ElevenCoins()))
  {
    RoundFixesUnits(0);
    var average := (100 * (10 * COIN) + 200 * COIN) as real / (11 * COIN) as real;
    assert average * (11 * COIN) as real == (1200 * COIN) as real;
    assert 108.5 < average < 109.5;
  }

  lemma IndebtedSums()
    ensures var ps := [ElevenCoins()];
            var marks := GateMarks(ps, "BTCUSDT", 200);
            marks == map["BTCUSDT" := 200] && Unrealized(ps, marks) == 1001 && Exposure(ps, marks) == 2200.0
  {
    var p := ElevenCoins();
    assert GateMarks([p][..0], "BTCUSDT", 200) == map[];
    var marks := GateMarks([p], "BTCUSDT", 200);
    assert marks == map["BTCUSDT" := 200];
    RoundFixesUnits(1001);
    assert UnrealizedOf(p, marks) == 1001 && ExposureOf(p, marks) == 2200.0;
    assert Unrealized([p][1..], marks) == 0 && Exposure([p][1..], marks) == 0.0;
  }

  lemma IndebtedOk()
    ensures var s := IndebtedAccount();
            && LoadedOk(s, 1) && Find(s.positions, "BTCUSDT") == Some(s.positions[0])
            && Replace(s.positions, "BTCUSDT", Some(ElevenCoins())) == [ElevenCoins()]
            && OrderMargin(s.orders, 0.1) == 20.0
            && RestingPrice(s.orders[0], 200, FreePolicy()) == 200
  {
    var s := IndebtedAccount();
    assert Without(s.positions[1..], "BTCUSDT") == [];
    assert Value(COIN, 200) == 200.0;
    assert OrderMargin(s.orders[1..], 0.1) == 0.0;
    RoundFixesUnits(200);
  }

  lemma IndebtedIsFilled()
    ensures var s := IndebtedAccount();
            RestingFill(s, s.orders[0], 200, 0, FreePolicy()) == FillResult(COIN, 0, 0, Some(ElevenCoins()))
  {
    var s := IndebtedAccount();
    var fill := FillResult(COIN, 0, 0, Some(ElevenCoins()));
    IndebtedOk();
    IndebtedFills();
    IndebtedSums();
    ImaginedAccount(s, "BTCUSDT", fill.next, 0, 0.1);
    assert Judged(s, "BTCUSDT", fill, 200, FreePolicy()) == Appraise(0, 1001, 2200.0, 20.0, FreePolicy());
    RoundFixesUnits(761);
    FreeFee(Value(COIN, 200), false);
    AcceptedWhenJudged(s, "BTCUSDT", COIN, Buy, 200, false, Set(None), Set(None),
                       Fills.Outcome(COIN, 0, Some(ElevenCoins())), 0, FreePolicy());
  }

  /** The gate takes the debt for nothing and lets the purchase through on the open profit; the account
      it leaves lacks 119 of margin and is due for liquidation. */
  lemma DebtEscapesTheGate()
    ensures LoadedOk(IndebtedAccount(), 1)
    ensures var r := TouchAt(Progress(IndebtedAccount(), false), 0, map["BTCUSDT" := 200], 0, FreePolicy()).state;
            var v := Valuation(r, map["BTCUSDT" := 200], FreePolicy());
            r.orders[0].status.Filled? && v.availableMargin == -119 && v.status.Liquidation?
  {
    var s := IndebtedAccount();
    IndebtedOk();
    IndebtedIsFilled();
    IndebtedSums();
    RoundFixesUnits(-119);
    TouchedAlone(s, 200, FillResult(COIN, 0, 0, Some(ElevenCoins())), 1001, 2200.0, FreePolicy());
  }
}
