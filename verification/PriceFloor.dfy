/** How low the marks of a run may be before an account can lose the prices it is made of. */
module PriceFloor {
  import opened Wrappers
  import opened FixedPoint
  import opened PaperTypes
  import opened Prices
  import opened Orders
  import opened Loading
  import opened Margin
  import opened Engine
  import opened Ledger
  import Fills

  /** No call with marks at or above the floor, on a well-formed account, leaves one that is not. */
  ghost predicate CallsKeep(floor: nat, policy: Policy) {
    forall stored, call, feed, now ::
      StoredOk(stored, floor) && PricesOk(call, feed, floor) && Perform(stored, call, feed, now, policy).Account?
      ==> StoredOk(Perform(stored, call, feed, now, policy).state, floor)
  }

  const SYMBOL: Symbol := "BTCUSDT"

  // ----- selling at market or through a stop --------------------------------------------------

  /** Selling one unit, at the market or through a stop at the given trigger. */
  function SellOne(trigger: Option<int>): Ticket {
    Ticket(SYMBOL, Sell, Kind.Market, 1, None, trigger, None, None, false)
  }

  function SellSlippage(trigger: Option<int>, policy: Policy): real {
    if trigger.Some? then policy.stopSlippageBps else policy.marketSlippageBps
  }

  function EmptyAccount(balance: int): State {
    State(balance, 0, 0, 0, 0, 0, 1, [], [])
  }

  /** Enough for one unit short at a mark not to be liquidated. */
  function EnoughFor(mark: int, policy: Policy): int {
    (Value(1, mark) + MarginOn(Value(1, mark), policy.maintenanceMarginRatio)).Floor + 3
  }

  function ShortOne(now: int): Position {
    Position(SYMBOL, Short, 1, 0, None, None, Some(now), now)
  }

  function ZeroFill(now: int): FillResult {
    FillResult(1, 0, 0, Some(ShortOne(now)))
  }

  lemma SellOneFillsAtZero(s: State, market: int, trigger: Option<int>, now: int, policy: Policy)
    requires PolicyOk(policy) && market > 0 && (trigger.Some? ==> trigger.value == market)
    requires s.positions == [] && s.orders == [] && s.balanceUsd >= 2
    requires !Sellable(market, SellSlippage(trigger, policy))
    ensures var o := PlacedOrder(s, SellOne(trigger), market);
            Immediate(o, market) && PlacedPrice(o, market, policy) == 0
              && PlacedFill(s, o, market, now, policy) == ZeroFill(now)
  {
    var o := PlacedOrder(s, SellOne(trigger), market);
    SellFloorAt(market, SellSlippage(trigger, policy));
    assert PlacedPrice(o, market, policy) == 0;
    RoundFixesUnits(0);
    assert Fills.ApplyFill(None, SYMBOL, 1, Sell, false, 0, now) == Fills.Outcome(1, 0, Some(ShortOne(now)));
    assert Fee(Value(1, 0), false, policy) == 0;
    ZeroPassesGate(s, now, policy);
  }

  /** The gate does not see a position without an entry price. */
  lemma ZeroPassesGate(s: State, now: int, policy: Policy)
    requires s.positions == [] && s.orders == [] && s.balanceUsd >= 2
    ensures GateOpens(s, SYMBOL, Some(ShortOne(now)), 0, 0, policy)
  {
    var imagined := Imagined(s, SYMBOL, Some(ShortOne(now)), 0);
    assert Replace([], SYMBOL, Some(ShortOne(now))) == [ShortOne(now)];
    assert CoercePositions([ShortOne(now)]) == [];
    assert imagined.positions == [] && imagined.orders == [];
    RoundFixesUnits(s.balanceUsd);
    RoundFixesUnits(0);
  }

  lemma ShortOneSurvives(s: State, market: int, now: int, policy: Policy)
    requires s.positions == [ShortOne(now)] && s.balanceUsd >= EnoughFor(market, policy) && market > 0
    ensures !MustLiquidate(s, map[SYMBOL := market], policy)
  {
    var marks := map[SYMBOL := market];
    assert s.positions[1..] == [];
    assert Unrealized(s.positions, marks) == Round(Value(1, -market));
    assert Exposure(s.positions, marks) == Value(1, market);
    ValueNegates(1, market);
    EnoughIsEnough(s.balanceUsd, Value(1, market), OrderMargin(s.orders, policy.initialMarginRatio), policy);
  }

  lemma EnoughIsEnough(balance: int, worth: real, pledged: real, policy: Policy)
    requires balance >= (worth + MarginOn(worth, policy.maintenanceMarginRatio)).Floor + 3
    ensures !Appraise(balance, Round(-worth), worth, pledged, policy).status.Liquidation?
  {
    AboveBoth(balance, worth, MarginOn(worth, policy.maintenanceMarginRatio));
  }

  lemma AboveBoth(balance: int, worth: real, maintenance: real)
    requires balance >= (worth + maintenance).Floor + 3
    ensures !Due(balance + Round(-worth), maintenance)
  {
  }

  /** Selling one unit at a mark that the slippage leaves less than half a unit of lists an order without a price. */
  lemma SellOneBreaks(market: int, trigger: Option<int>, policy: Policy) returns (stored: State)
    requires PolicyOk(policy) && market > 0 && (trigger.Some? ==> trigger.value == market)
    requires !Sellable(market, SellSlippage(trigger, policy))
    ensures StoredOk(stored, market)
    ensures var w := Perform(stored, PlaceCall(SellOne(trigger), Some(market)), map[], 0, policy);
            w.Account? && !StoredOk(w.state, market)
  {
    ValueNonNegative(1, market);
    Product(Value(1, market), policy.maintenanceMarginRatio);
    stored := EmptyAccount(EnoughFor(market, policy));
    NothingToReconcile(stored, policy);
    SellOnePlaced(stored, market, trigger, policy);
    PlaceCallWrites(stored, SellOne(trigger), market, policy);
    UnpricedIsNotOk(Saved(Place(stored, SellOne(trigger), market, 0, policy).value), market);
  }

  lemma PlaceCallWrites(s: State, t: Ticket, market: int, policy: Policy)
    requires Loaded(s, map[], 0, policy) == Progress(s, false) && t.symbol != "" && t.qty > 0
    requires Place(s, t, market, 0, policy).Ok?
    ensures Perform(s, PlaceCall(t, Some(market)), map[], 0, policy)
         == Account(Saved(Place(s, t, market, 0, policy).value))
  {
  }

  lemma NothingToReconcile(s: State, policy: Policy)
    requires s.positions == [] && s.orders == [] && s.balanceUsd >= 0 && s == EmptyAccount(s.balanceUsd)
    ensures Loaded(s, map[], 0, policy) == Progress(s, false)
  {
    assert Coerce(s) == s && MarksFor(s, map[]) == map[];
  }

  lemma SellOnePlaced(s: State, market: int, trigger: Option<int>, policy: Policy)
    requires PolicyOk(policy) && market > 0 && (trigger.Some? ==> trigger.value == market)
    requires !Sellable(market, SellSlippage(trigger, policy))
    requires s == EmptyAccount(EnoughFor(market, policy)) && s.balanceUsd >= 3
    ensures var r := Place(s, SellOne(trigger), market, 0, policy);
            r.Ok? && |r.value.orders| == 1 && r.value.orders[0].price == 0
  {
    var o := PlacedOrder(s, SellOne(trigger), market);
    SellOneFillsAtZero(Numbered(s), market, trigger, 0, policy);
    SellOneIsListed(s, o, policy, market);
  }

  lemma SellOneIsListed(s: State, o: Order, policy: Policy, market: int)
    requires s == EmptyAccount(EnoughFor(market, policy)) && market > 0
    requires QuantitiesOk(o) && o.status.Open? && o.qty == 1 && o.symbol == SYMBOL && o.originalQty == 1
    requires o.fillCount == 0
    ensures var r := Finish(Numbered(s), o, ZeroFill(0), 0, market, 0, policy);
            r.Ok? && |r.value.orders| == 1 && r.value.orders[0].price == 0
  {
    var booked := Executed(Numbered(s), o, ZeroFill(0), 0);
    RoundFixesUnits(0);
    assert Replace([], SYMBOL, Some(ShortOne(0))) == [ShortOne(0)];
    assert booked.positions == [ShortOne(0)] && booked.balanceUsd == s.balanceUsd;
    ShortOneSurvives(booked, market, 0, policy);
  }

  // ----- liquidating a long -------------------------------------------------------------------

  function LongOne(entry: int): Position {
    Position(SYMBOL, Long, 1, entry, None, None, Some(0), 0)
  }

  function LongAccount(entry: int): State {
    State(0, 0, 0, 0, 0, 0, 1, [LongOne(entry)], [])
  }

  lemma LongIsDue(market: int, policy: Policy)
    requires PolicyOk(policy) && market > 0
    ensures MustLiquidate(LongAccount(market), map[SYMBOL := market], policy)
  {
    var s := LongAccount(market);
    var marks := map[SYMBOL := market];
    assert s.positions[1..] == [];
    RoundFixesUnits(0);
    assert Unrealized(s.positions, marks) == 0 && Exposure(s.positions, marks) == Value(1, market);
    ValueNonNegative(1, market);
    Product(Value(1, market), policy.maintenanceMarginRatio);
  }

  /** Liquidating one unit at such a mark writes a closing order without a price. */
  lemma LiquidationBreaks(market: int, policy: Policy)
    requires PolicyOk(policy) && market > 0 && !Sellable(market, policy.liquidationSlippageBps)
    ensures StoredOk(LongAccount(market), market)
    ensures var w := Perform(LongAccount(market), List, map[SYMBOL := market], 0, policy);
            w.Account? && !StoredOk(w.state, market)
  {
    LongIsDue(market, policy);
    LongIsClosedAtZero(market, policy);
    LongIsLoaded(market, policy);
    ListCallWrites(LongAccount(market), map[SYMBOL := market], policy);
    UnpricedIsNotOk(Loaded(LongAccount(market), map[SYMBOL := market], 0, policy).state, market);
  }

  lemma ListCallWrites(s: State, marks: Marks, policy: Policy)
    requires Loaded(s, marks, 0, policy).changed
    ensures Perform(s, List, marks, 0, policy) == Account(Loaded(s, marks, 0, policy).state)
  {
  }

  lemma UnpricedIsNotOk(s: State, floor: nat)
    requires floor > 0 && s.orders != [] && s.orders[0].price == 0
    ensures !StoredOk(s, floor)
  {
    assert s.orders[0] in s.orders;
  }

  /** The pass over the long does nothing but liquidate it. */
  lemma LongIsLoaded(market: int, policy: Policy)
    requires market > 0 && MustLiquidate(LongAccount(market), map[SYMBOL := market], policy)
    ensures var s := LongAccount(market);
            var marks := map[SYMBOL := market];
            Loaded(s, marks, 0, policy) == Progress(Saved(Liquidate(s, marks, 0, policy).state), true)
  {
    var s := LongAccount(market);
    LongLoads(market);
    LongIsWatched(market);
    LongOnlyLiquidates(market, policy);
    OnlyLiquidates(s, map[SYMBOL := market], policy);
  }

  lemma LongLoads(market: int)
    requires market > 0
    ensures Coerce(LongAccount(market)) == LongAccount(market)
  {
    var p := LongOne(market);
    assert |p.symbol| == 7 && CoercePosition(p) == p;
    assert [p][1..] == [];
    assert CoercePositions([p]) == [p];
  }

  lemma OnlyLiquidates(s: State, marks: Marks, policy: Policy)
    requires MarksFor(s, marks) == marks && marks != map[] && MustLiquidate(s, marks, policy)
    requires Accrue(s, marks, 0, policy) == Progress(s, false)
    requires TouchFrom(Progress(s, false), 0, marks, 0, policy) == Progress(s, false)
    requires ExitAll(Progress(s, false), s.positions, marks, 0, policy) == Progress(s, false)
    ensures Reconcile(s, marks, 0, policy) == Progress(Saved(Liquidate(s, marks, 0, policy).state), true)
  {
  }

  lemma LongIsWatched(market: int)
    ensures MarksFor(LongAccount(market), map[SYMBOL := market]) == map[SYMBOL := market]
  {
    var s := LongAccount(market);
    assert s.positions[0] in s.positions;
    assert SYMBOL in Watched(s);
    assert MarksFor(s, map[SYMBOL := market]) == map[SYMBOL := market];
  }

  lemma LongIsClosedAtZero(market: int, policy: Policy)
    requires PolicyOk(policy) && market > 0 && !Sellable(market, policy.liquidationSlippageBps)
    ensures var r := LiquidateAll(LongAccount(market), [LongOne(market)], map[SYMBOL := market], 0, policy);
            |r.orders| == 1 && r.orders[0].price == 0
  {
    SellFloorAt(market, policy.liquidationSlippageBps);
    assert [LongOne(market)][1..] == [];
  }

  lemma LongOnlyLiquidates(market: int, policy: Policy)
    requires market > 0
    ensures var s := LongAccount(market);
            var marks := map[SYMBOL := market];
            && Accrue(s, marks, 0, policy) == Progress(s, false)
            && TouchFrom(Progress(s, false), 0, marks, 0, policy) == Progress(s, false)
            && ExitAll(Progress(s, false), s.positions, marks, 0, policy) == Progress(s, false)
  {
    var s := LongAccount(market);
    var w := Progress(s, false);
    assert AccrueFrom(w, 1, map[SYMBOL := market], 0, policy) == w;
    assert s.positions[1..] == [];
  }

  // ----- the exact floor ----------------------------------------------------------------------

  /** Accounts stay well formed, whatever is called, exactly when the policy can sell at the floor: half
      a unit of it is left after each of the three slippages. */
  lemma FloorExactly(floor: nat, policy: Policy)
    requires floor > 0 && PolicyOk(policy)
    ensures CallsKeep(floor, policy) <==> FloorOk(floor, policy)
  {
    if FloorOk(floor, policy) {
      forall stored, call, feed, now |
        StoredOk(stored, floor) && PricesOk(call, feed, floor) && Perform(stored, call, feed, now, policy).Account?
        ensures StoredOk(Perform(stored, call, feed, now, policy).state, floor)
      {
        CallKeepsStored(stored, call, feed, now, policy, floor);
      }
    } else if !Sellable(floor, policy.marketSlippageBps) {
      var stored := SellOneBreaks(floor, None, policy);
      assert PricesOk(PlaceCall(SellOne(None), Some(floor)), map[], floor);
    } else if !Sellable(floor, policy.stopSlippageBps) {
      var stored := SellOneBreaks(floor, Some(floor), policy);
      assert PricesOk(PlaceCall(SellOne(Some(floor)), Some(floor)), map[], floor);
    } else {
      LiquidationBreaks(floor, policy);
      assert PricesOk(List, map[SYMBOL := floor], floor);
    }
  }
}
