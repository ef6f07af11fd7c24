/** What a fill does to the account's equity, valued at the fill's own price. */
module Equity {
  import opened Wrappers
  import opened FixedPoint
  import opened PaperTypes
  import opened Loading
  import opened Prices
  import opened Margin
  import opened Engine
  import opened Fills
  import MarkToMarket
  import Orders

  lemma {:induction false} UnrealizedConcat(a: seq<Position>, b: seq<Position>, marks: Marks)
    ensures Unrealized(a + b, marks) == Unrealized(a, marks) + Unrealized(b, marks)
  {
    if a == [] {
      assert a + b == b;
    } else {
      assert (a + b)[1..] == a[1..] + b;
      UnrealizedConcat(a[1..], b, marks);
    }
  }

  function UnrealizedAt(p: Option<Position>, marks: Marks): int {
    if p.Some? then UnrealizedOf(p.value, marks) else 0
  }

  lemma {:induction false} UnrealizedWithout(ps: seq<Position>, symbol: Symbol, marks: Marks)
    requires UniqueSymbols(ps)
    ensures Unrealized(Without(ps, symbol), marks) == Unrealized(ps, marks) - UnrealizedAt(Find(ps, symbol), marks)
  {
    if ps != [] {
      UnrealizedWithout(ps[1..], symbol, marks);
    }
  }

  lemma UnrealizedReplace(ps: seq<Position>, symbol: Symbol, next: Option<Position>, marks: Marks)
    requires UniqueSymbols(ps)
    ensures Unrealized(Replace(ps, symbol, next), marks)
         == Unrealized(ps, marks) - UnrealizedAt(Find(ps, symbol), marks) + UnrealizedAt(next, marks)
  {
    UnrealizedWithout(ps, symbol, marks);
    UnrealizedConcat(Without(ps, symbol), AsList(next), marks);
    assert next.Some? ==> AsList(next)[1..] == [];
  }

  /** A snapshot counts a position's open profit to the nearest unit. */
  lemma UnrealizedIsOpenPnl(p: Option<Position>, marks: Marks, mark: int)
    requires Held(p) && mark > 0
    requires p.Some? ==> p.value.symbol in marks && marks[p.value.symbol] == mark
    ensures -0.5 <= UnrealizedAt(p, marks) as real - OpenPnl(p, mark) <= 0.5
  {
    if p.Some? && p.value.direction.Short? {
      ValueNegates(p.value.qty, mark - p.value.entryPrice);
    }
  }

  /** An accepted fill is applyPaperFill's, apart from the exits attached to the position. */
  lemma AcceptedFill(s: State, symbol: Symbol, qty: int, side: Side, reduceOnly: bool, price: int, maker: bool,
                     takeProfit: Attached, stopLoss: Attached, now: int, mark: int, policy: Policy)
    requires Held(Find(s.positions, symbol)) && qty > 0
    ensures var fill := OrderFill(s, symbol, qty, side, reduceOnly, price, maker, takeProfit, stopLoss, now, policy);
            var out := ApplyFill(Find(s.positions, symbol), symbol, qty, side, reduceOnly, price, now);
            fill.filledQty > 0 ==>
              && fill.realizedPnl == out.realizedPnl
              && Held(fill.next) && (fill.next.Some? ==> fill.next.value.symbol == symbol)
              && Signed(fill.next) == Signed(out.next)
              && OpenPnl(fill.next, mark) == OpenPnl(out.next, mark)
  {
    FillKeepsHeld(Find(s.positions, symbol), symbol, qty, side, reduceOnly, price, now);
  }

  /** Booking a fill moves the equity at any mark of its symbol by what it books and leaves open there. */
  lemma BookedEquity(s: State, symbol: Symbol, fill: FillResult, price: int, mark: int, marks: Marks, policy: Policy)
    requires UniqueSymbols(s.positions) && Held(Find(s.positions, symbol)) && Held(fill.next)
    requires fill.next.Some? ==> fill.next.value.symbol == symbol
    requires mark > 0 && symbol in marks && marks[symbol] == mark
    ensures var before := Valuation(s, marks, policy).equity;
            var after := Valuation(Book(s, symbol, fill, price), marks, policy).equity;
            var moved := fill.realizedPnl as real + OpenPnl(fill.next, mark) - OpenPnl(Find(s.positions, symbol), mark);
            moved - 1.0 <= (after - (before - fill.feeUsd)) as real <= moved + 1.0
  {
    UnrealizedReplace(s.positions, symbol, fill.next, marks);
    UnrealizedIsOpenPnl(Find(s.positions, symbol), marks, mark);
    UnrealizedIsOpenPnl(fill.next, marks, mark);
  }

  lemma OwnPriceStep(current: Option<Position>, symbol: Symbol, t: MarkToMarket.Trade)
    requires Held(current) && t.qty > 0
    ensures var out := MarkToMarket.Apply(current, symbol, t);
            -FillDrift(out.next)
              <= out.realizedPnl as real + OpenPnl(out.next, t.price) - OpenPnl(current, t.price)
              <= FillDrift(out.next)
  {
    MarkToMarket.FillStep(current, symbol, t, t.price);
  }

  /** A fill at `price` moves the equity valued with the symbol at that price by its fee alone, up to
      the fill's own rounding and one unit for the two snapshots. */
  lemma FillCostsItsFee(s: State, symbol: Symbol, qty: int, side: Side, reduceOnly: bool, price: int, maker: bool,
                        takeProfit: Attached, stopLoss: Attached, now: int, marks: Marks, policy: Policy)
    requires UniqueSymbols(s.positions) && (forall p :: p in s.positions ==> p.qty > 0)
    requires qty > 0 && price > 0 && symbol in marks && marks[symbol] == price
    requires OrderFill(s, symbol, qty, side, reduceOnly, price, maker, takeProfit, stopLoss, now, policy).filledQty > 0
    ensures var fill := OrderFill(s, symbol, qty, side, reduceOnly, price, maker, takeProfit, stopLoss, now, policy);
            var before := Valuation(s, marks, policy).equity;
            var after := Valuation(Book(s, symbol, fill, price), marks, policy).equity;
            -(FillDrift(fill.next) + 1.0) <= (after - (before - fill.feeUsd)) as real <= FillDrift(fill.next) + 1.0
  {
    var t := MarkToMarket.Trade(side, qty, price, reduceOnly, now);
    var fill := OrderFill(s, symbol, qty, side, reduceOnly, price, maker, takeProfit, stopLoss, now, policy);
    AcceptedFill(s, symbol, qty, side, reduceOnly, price, maker, takeProfit, stopLoss, now, price, policy);
    OwnPriceStep(Find(s.positions, symbol), symbol, t);
    BookedEquity(s, symbol, fill, price, price, marks, policy);
  }

  // ----- no fill is a gift --------------------------------------------------------------------

  lemma WorseTrade(current: Option<Position>, symbol: Symbol, t: MarkToMarket.Trade, market: int)
    requires Held(current) && t.qty > 0 && NotBetter(t.side, t.price, market)
    ensures var out := MarkToMarket.Apply(current, symbol, t);
            out.realizedPnl as real + OpenPnl(out.next, market) - OpenPnl(current, market) <= FillDrift(out.next)
  {
    MarkToMarket.FillStep(current, symbol, t, market);
    DeltaFollowsSide(current, t);
    LosingValue(MarkToMarket.DeltaOf(current, t), market - t.price);
  }

  lemma DeltaFollowsSide(current: Option<Position>, t: MarkToMarket.Trade)
    requires t.qty > 0
    ensures if t.side.Buy? then MarkToMarket.DeltaOf(current, t) >= 0 else MarkToMarket.DeltaOf(current, t) <= 0
  {
  }

  lemma LosingValue(delta: int, move: int)
    requires (delta >= 0 && move <= 0) || (delta <= 0 && move >= 0)
    ensures Value(delta, move) <= 0.0
  {
    assert delta * move <= 0;
  }

  /** A fill at a price no better than the market's never raises the equity valued at the market, and
      costs at least its fee, up to the fill's rounding and one unit. */
  lemma FillNeverEnriches(s: State, symbol: Symbol, qty: int, side: Side, reduceOnly: bool, price: int, maker: bool,
                          takeProfit: Attached, stopLoss: Attached, now: int, market: int, marks: Marks, policy: Policy)
    requires UniqueSymbols(s.positions) && (forall p :: p in s.positions ==> p.qty > 0)
    requires qty > 0 && market > 0 && NotBetter(side, price, market)
    requires symbol in marks && marks[symbol] == market
    requires OrderFill(s, symbol, qty, side, reduceOnly, price, maker, takeProfit, stopLoss, now, policy).filledQty > 0
    ensures var fill := OrderFill(s, symbol, qty, side, reduceOnly, price, maker, takeProfit, stopLoss, now, policy);
            var before := Valuation(s, marks, policy).equity;
            var after := Valuation(Book(s, symbol, fill, price), marks, policy).equity;
            (after - (before - fill.feeUsd)) as real <= FillDrift(fill.next) + 1.0
  {
    var t := MarkToMarket.Trade(side, qty, price, reduceOnly, now);
    var fill := OrderFill(s, symbol, qty, side, reduceOnly, price, maker, takeProfit, stopLoss, now, policy);
    AcceptedFill(s, symbol, qty, side, reduceOnly, price, maker, takeProfit, stopLoss, now, market, policy);
    WorseTrade(Find(s.positions, symbol), symbol, t, market);
    BookedEquity(s, symbol, fill, price, market, marks, policy);
  }

  // and none of the engine's fills is at a better price

  lemma RestingPriceNotBetter(o: Order, marks: Marks, policy: Policy)
    requires Touched(o, marks, policy) && MarksOk(marks) && SlipsAgainst(policy)
    ensures NotBetter(o.side, RestingPrice(o, marks[o.symbol], policy), marks[o.symbol])
  {
    AggressiveNotBetter(o.side, marks[o.symbol], policy.stopSlippageBps);
    AggressiveNotBetter(o.side, marks[o.symbol], policy.marketSlippageBps);
  }

  lemma PlacedPriceNotBetter(o: Order, market: int, policy: Policy)
    requires Immediate(o, market) && market > 0 && SlipsAgainst(policy)
    ensures NotBetter(o.side, PlacedPrice(o, market, policy), market)
  {
    AggressiveNotBetter(o.side, market, policy.stopSlippageBps);
    AggressiveNotBetter(o.side, market, policy.marketSlippageBps);
  }

  /** A take-profit fills at its own price, which the mark has passed; a stop-loss slips. */
  lemma ExitPriceNotBetter(p: Position, mark: int, policy: Policy)
    requires mark > 0 && ExitTrigger(p, mark).Some? && SlipsAgainst(policy)
    ensures NotBetter(Opposite(p.direction), ExitPrice(p, mark, ExitTrigger(p, mark).value, policy), mark)
  {
    AggressiveNotBetter(Opposite(p.direction), mark, policy.stopSlippageBps);
  }

  /** One resting order's turn in a pass never raises the equity at the marks of the pass. */
  lemma TouchNeverEnriches(s: State, o: Order, marks: Marks, now: int, policy: Policy)
    requires UniqueSymbols(s.positions) && (forall p :: p in s.positions ==> p.qty > 0)
    requires Touched(o, marks, policy) && MarksOk(marks) && SlipsAgainst(policy)
    ensures var market := marks[o.symbol];
            var fill := RestingFill(s, o, market, now, policy);
            var before := Valuation(s, marks, policy).equity;
            var after := Valuation(Book(s, o.symbol, fill, RestingPrice(o, market, policy)), marks, policy).equity;
            fill.filledQty > 0 ==> (after - (before - fill.feeUsd)) as real <= FillDrift(fill.next) + 1.0
  {
    var market := marks[o.symbol];
    if RestingFill(s, o, market, now, policy).filledQty > 0 {
      RestingPriceNotBetter(o, marks, policy);
      FillNeverEnriches(s, o.symbol, Orders.TouchQty(o, policy), o.side, o.reduceOnly, RestingPrice(o, market, policy),
                        o.kind.Limit? && o.trigger.None?, Set(o.takeProfit), Set(o.stopLoss), now, market, marks,
                        policy);
    }
  }
}
