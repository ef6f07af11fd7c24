/** Whole runs of calls, seen through the trades they made: what was realized, what is open and what is
    held are explained by the list of fills alone. */
module RunEquity {
  import opened Wrappers
  import opened FixedPoint
  import opened PaperTypes
  import opened Prices
  import opened Orders
  import opened Loading
  import opened Engine
  import opened Accounts
  import opened Ledger
  import opened Fills
  import Equity
  import MarkToMarket

  /** One fill as the engine made it: the signed change, its price, and the position it left. */
  datatype Deal = Deal(symbol: Symbol, delta: int, price: int, left: Option<Position>)

  /** A mark for every symbol. */
  type Quotes = Symbol -> int

  function Earned(ds: seq<Deal>, quotes: Quotes): real {
    if ds == [] then 0.0 else Value(ds[0].delta, quotes(ds[0].symbol) - ds[0].price) + Earned(ds[1..], quotes)
  }

  function Drift(ds: seq<Deal>): real {
    if ds == [] then 0.0 else FillDrift(ds[0].left) + Drift(ds[1..])
  }

  function Traded(ds: seq<Deal>, symbol: Symbol): int {
    if ds == [] then 0 else (if ds[0].symbol == symbol then ds[0].delta else 0) + Traded(ds[1..], symbol)
  }

  /** Open profit of all positions, exact. */
  function Open(ps: seq<Position>, quotes: Quotes): real {
    if ps == [] then 0.0 else OpenPnl(Some(ps[0]), quotes(ps[0].symbol)) + Open(ps[1..], quotes)
  }

  function Profit(s: State, quotes: Quotes): real {
    s.realizedPnlUsd as real + Open(s.positions, quotes)
  }

  function Holding(s: State, symbol: Symbol): int {
    Signed(Find(s.positions, symbol))
  }

  /** From `s` to `r` the profit and the holdings moved by what the deals earned and traded. */
  ghost predicate Explains(ds: seq<Deal>, s: State, r: State, quotes: Quotes, symbol: Symbol) {
    && -Drift(ds) <= Profit(r, quotes) - Profit(s, quotes) - Earned(ds, quotes) <= Drift(ds)
    && Holding(r, symbol) == Holding(s, symbol) + Traded(ds, symbol)
  }

  // ----- composing ----------------------------------------------------------------------------

  lemma {:induction false} DealsAppend(a: seq<Deal>, b: seq<Deal>, quotes: Quotes, symbol: Symbol)
    ensures Earned(a + b, quotes) == Earned(a, quotes) + Earned(b, quotes)
    ensures Drift(a + b) == Drift(a) + Drift(b)
    ensures Traded(a + b, symbol) == Traded(a, symbol) + Traded(b, symbol)
  {
    if a == [] {
      assert a + b == b;
    } else {
      assert (a + b)[1..] == a[1..] + b;
      DealsAppend(a[1..], b, quotes, symbol);
    }
  }

  lemma ExplainsBoth(a: seq<Deal>, b: seq<Deal>, s: State, m: State, r: State, quotes: Quotes, symbol: Symbol)
    requires Explains(a, s, m, quotes, symbol) && Explains(b, m, r, quotes, symbol)
    ensures Explains(a + b, s, r, quotes, symbol)
  {
    DealsAppend(a, b, quotes, symbol);
  }

  /** The same positions, but for exits and funding times. */
  predicate SameHoldings(ps: seq<Position>, qs: seq<Position>) {
    |ps| == |qs| && forall i :: 0 <= i < |ps| ==> SameHolding(ps[i], qs[i])
  }

  predicate SameHolding(p: Position, q: Position) {
    p.symbol == q.symbol && p.direction == q.direction && p.qty == q.qty && p.entryPrice == q.entryPrice
  }

  lemma {:induction false} SameHoldingsSame(ps: seq<Position>, qs: seq<Position>, quotes: Quotes, symbol: Symbol)
    requires SameHoldings(ps, qs)
    ensures Open(ps, quotes) == Open(qs, quotes) && Signed(Find(ps, symbol)) == Signed(Find(qs, symbol))
  {
    if ps != [] {
      SameHoldingsTail(ps, qs);
      SameHoldingsSame(ps[1..], qs[1..], quotes, symbol);
      SameWorth(ps[0], qs[0], quotes);
    }
  }

  lemma SameHoldingsTail(ps: seq<Position>, qs: seq<Position>)
    requires ps != [] && SameHoldings(ps, qs)
    ensures SameHolding(ps[0], qs[0]) && SameHoldings(ps[1..], qs[1..])
  {
  }

  lemma SameWorth(p: Position, q: Position, quotes: Quotes)
    requires SameHolding(p, q)
    ensures OpenPnl(Some(p), quotes(p.symbol)) == OpenPnl(Some(q), quotes(q.symbol)) && SignedQty(p) == SignedQty(q)
  {
  }

  lemma ExplainsNothing(s: State, r: State, quotes: Quotes, symbol: Symbol)
    requires SameHoldings(s.positions, r.positions) && s.realizedPnlUsd == r.realizedPnlUsd
    ensures Explains([], s, r, quotes, symbol)
  {
    SameHoldingsSame(s.positions, r.positions, quotes, symbol);
  }

  // ----- one fill -----------------------------------------------------------------------------

  lemma {:induction false} OpenConcat(a: seq<Position>, b: seq<Position>, quotes: Quotes)
    ensures Open(a + b, quotes) == Open(a, quotes) + Open(b, quotes)
  {
    if a == [] {
      assert a + b == b;
    } else {
      assert (a + b)[1..] == a[1..] + b;
      OpenConcat(a[1..], b, quotes);
    }
  }

  lemma {:induction false} OpenWithout(ps: seq<Position>, symbol: Symbol, quotes: Quotes)
    requires UniqueSymbols(ps)
    ensures Open(Without(ps, symbol), quotes) == Open(ps, quotes) - OpenPnl(Find(ps, symbol), quotes(symbol))
  {
    if ps != [] {
      UniqueTail(ps);
      OpenWithout(ps[1..], symbol, quotes);
    }
  }

  lemma OpenReplace(ps: seq<Position>, symbol: Symbol, next: Option<Position>, quotes: Quotes)
    requires UniqueSymbols(ps) && (next.Some? ==> next.value.symbol == symbol)
    ensures Open(Replace(ps, symbol, next), quotes)
         == Open(ps, quotes) - OpenPnl(Find(ps, symbol), quotes(symbol)) + OpenPnl(next, quotes(symbol))
  {
    OpenWithout(ps, symbol, quotes);
    OpenConcat(Without(ps, symbol), AsList(next), quotes);
    assert next.Some? ==> AsList(next)[1..] == [];
  }

  /** The deal a computed fill makes, if it fills anything. */
  function DealOf(s: State, symbol: Symbol, qty: int, side: Side, reduceOnly: bool, price: int,
                  fill: FillResult): seq<Deal> {
    if fill.filledQty <= 0 then []
    else [Deal(symbol, EffectiveDelta(Holding(s, symbol), side, qty, reduceOnly), price, fill.next)]
  }

  /** The profit a fill realizes and the open profit it adds, at a mark. */
  function Moved(s: State, symbol: Symbol, fill: FillResult, mark: int): real {
    fill.realizedPnl as real + OpenPnl(fill.next, mark) - OpenPnl(Find(s.positions, symbol), mark)
  }

  lemma SingleDeal(d: Deal, quotes: Quotes, symbol: Symbol)
    ensures Earned([d], quotes) == Value(d.delta, quotes(d.symbol) - d.price)
    ensures Drift([d]) == FillDrift(d.left)
    ensures Traded([d], symbol) == if d.symbol == symbol then d.delta else 0
  {
    assert [d][1..] == [];
  }

  lemma BookExplained(s: State, symbol: Symbol, qty: int, side: Side, reduceOnly: bool, price: int, maker: bool,
                      takeProfit: Attached, stopLoss: Attached, now: int, policy: Policy, quotes: Quotes, other: Symbol)
    requires UniqueSymbols(s.positions) && (forall p :: p in s.positions ==> p.qty > 0) && qty > 0
    ensures var fill := OrderFill(s, symbol, qty, side, reduceOnly, price, maker, takeProfit, stopLoss, now, policy);
            fill.filledQty > 0 ==>
              Explains(DealOf(s, symbol, qty, side, reduceOnly, price, fill), s, Book(s, symbol, fill, price), quotes,
                       other)
  {
    var fill := OrderFill(s, symbol, qty, side, reduceOnly, price, maker, takeProfit, stopLoss, now, policy);
    if fill.filledQty > 0 {
      AcceptedMoves(s, symbol, qty, side, reduceOnly, price, maker, takeProfit, stopLoss, now, quotes(symbol), policy);
      DealExplains(s, symbol, fill, price, EffectiveDelta(Holding(s, symbol), side, qty, reduceOnly), quotes, other);
    }
  }

  lemma AcceptedMoves(s: State, symbol: Symbol, qty: int, side: Side, reduceOnly: bool, price: int, maker: bool,
                      takeProfit: Attached, stopLoss: Attached, now: int, mark: int, policy: Policy)
    requires Held(Find(s.positions, symbol)) && qty > 0
    requires OrderFill(s, symbol, qty, side, reduceOnly, price, maker, takeProfit, stopLoss, now, policy).filledQty > 0
    ensures var fill := OrderFill(s, symbol, qty, side, reduceOnly, price, maker, takeProfit, stopLoss, now, policy);
            var delta := EffectiveDelta(Holding(s, symbol), side, qty, reduceOnly);
            var moved := Moved(s, symbol, fill, mark);
            && (fill.next.Some? ==> fill.next.value.symbol == symbol)
            && Signed(fill.next) == Holding(s, symbol) + delta
            && -FillDrift(fill.next) <= moved - Value(delta, mark - price) <= FillDrift(fill.next)
  {
    var current := Find(s.positions, symbol);
    var t := MarkToMarket.Trade(side, qty, price, reduceOnly, now);
    FillKeepsHeld(current, symbol, qty, side, reduceOnly, price, now);
    Equity.AcceptedFill(s, symbol, qty, side, reduceOnly, price, maker, takeProfit, stopLoss, now, mark, policy);
    MarkToMarket.FillStep(current, symbol, t, mark);
  }

  lemma DealExplains(s: State, symbol: Symbol, fill: FillResult, price: int, delta: int, quotes: Quotes, other: Symbol)
    requires UniqueSymbols(s.positions) && (fill.next.Some? ==> fill.next.value.symbol == symbol)
    requires Signed(fill.next) == Holding(s, symbol) + delta
    requires var mark := quotes(symbol);
             var moved := Moved(s, symbol, fill, mark);
             -FillDrift(fill.next) <= moved - Value(delta, mark - price) <= FillDrift(fill.next)
    ensures Explains([Deal(symbol, delta, price, fill.next)], s, Book(s, symbol, fill, price), quotes, other)
  {
    SingleDeal(Deal(symbol, delta, price, fill.next), quotes, other);
    ProfitMoves(s, symbol, fill, price, quotes);
    HoldingMoves(s, symbol, fill, price, delta, other);
  }

  lemma ProfitMoves(s: State, symbol: Symbol, fill: FillResult, price: int, quotes: Quotes)
    requires UniqueSymbols(s.positions) && (fill.next.Some? ==> fill.next.value.symbol == symbol)
    ensures Profit(Book(s, symbol, fill, price), quotes) - Profit(s, quotes)
         == Moved(s, symbol, fill, quotes(symbol))
  {
    OpenReplace(s.positions, symbol, fill.next, quotes);
  }

  lemma HoldingMoves(s: State, symbol: Symbol, fill: FillResult, price: int, delta: int, other: Symbol)
    requires UniqueSymbols(s.positions) && (fill.next.Some? ==> fill.next.value.symbol == symbol)
    requires Signed(fill.next) == Holding(s, symbol) + delta
    ensures Holding(Book(s, symbol, fill, price), other) == Holding(s, other) + if symbol == other then delta else 0
  {
    ReplaceIsUpdate(s.positions, symbol, fill.next);
  }

  // ----- the loops of a pass ------------------------------------------------------------------

  function TouchDeal(w: Progress, i: nat, marks: Marks, now: int, policy: Policy): seq<Deal>
    requires i < |w.state.orders|
  {
    var o := w.state.orders[i];
    if !Touched(o, marks, policy) then []
    else DealOf(w.state, o.symbol, TouchQty(o, policy), o.side, o.reduceOnly, RestingPrice(o, marks[o.symbol], policy),
                RestingFill(w.state, o, marks[o.symbol], now, policy))
  }

  function TouchDeals(w: Progress, i: nat, marks: Marks, now: int, policy: Policy): seq<Deal>
    requires i <= |w.state.orders|
    decreases |w.state.orders| - i
  {
    if i == |w.state.orders| then []
    else TouchDeal(w, i, marks, now, policy) + TouchDeals(TouchAt(w, i, marks, now, policy), i + 1, marks, now, policy)
  }

  lemma TouchDealExplains(w: Progress, i: nat, marks: Marks, now: int, policy: Policy, quotes: Quotes, symbol: Symbol)
    requires i < |w.state.orders| && LoadedOk(w.state, 0)
    ensures Explains(TouchDeal(w, i, marks, now, policy), w.state, TouchAt(w, i, marks, now, policy).state, quotes,
                     symbol)
  {
    var s, o := w.state, w.state.orders[i];
    assert o in s.orders;
    ExplainsNothing(s, s, quotes, symbol);
    if Touched(o, marks, policy) {
      var price := RestingPrice(o, marks[o.symbol], policy);
      TouchLeavesMoreThanOne(o, policy);
      BookExplained(s, o.symbol, TouchQty(o, policy), o.side, o.reduceOnly, price, o.kind.Limit? && o.trigger.None?,
                    Set(o.takeProfit), Set(o.stopLoss), now, policy, quotes, symbol);
    }
  }

  lemma {:induction false} TouchDealsExplain(w: Progress, i: nat, marks: Marks, now: int, policy: Policy,
                                             quotes: Quotes,
                                             symbol: Symbol)
    requires i <= |w.state.orders| && LoadedOk(w.state, 0)
    ensures Explains(TouchDeals(w, i, marks, now, policy), w.state, TouchFrom(w, i, marks, now, policy).state, quotes,
                     symbol)
    decreases |w.state.orders| - i
  {
    if i == |w.state.orders| {
      ExplainsNothing(w.state, w.state, quotes, symbol);
    } else {
      var next := TouchAt(w, i, marks, now, policy);
      TouchDealExplains(w, i, marks, now, policy, quotes, symbol);
      TouchAtKeeps(w, i, marks, now, policy, 0);
      TouchDealsExplain(next, i + 1, marks, now, policy, quotes, symbol);
      ExplainsBoth(TouchDeal(w, i, marks, now, policy), TouchDeals(next, i + 1, marks, now, policy), w.state,
                   next.state,
                   TouchFrom(next, i + 1, marks, now, policy).state, quotes, symbol);
    }
  }

  function CloseDeal(s: State, p: Position, price: int, maker: bool, now: int, policy: Policy): seq<Deal> {
    DealOf(s, p.symbol, p.qty, Opposite(p.direction), true, price, CloseFill(s, p, price, maker, now, policy))
  }

  lemma CloseDealExplains(s: State, p: Position, price: int, maker: bool, trigger: Option<int>, now: int,
                          policy: Policy,
                          quotes: Quotes, symbol: Symbol)
    requires LoadedOk(s, 0) && p.qty > 0
    ensures var fill := CloseFill(s, p, price, maker, now, policy);
            var r := if fill.filledQty <= 0 then s else CloseBooked(s, p, fill, price, trigger);
            Explains(CloseDeal(s, p, price, maker, now, policy), s, r, quotes, symbol)
  {
    ExplainsNothing(s, s, quotes, symbol);
    BookExplained(s, p.symbol, p.qty, Opposite(p.direction), true, price, maker, Set(p.takeProfit), Set(p.stopLoss),
                  now,
                  policy, quotes, symbol);
  }

  function ExitDeal(w: Progress, p: Position, marks: Marks, now: int, policy: Policy): seq<Deal> {
    if p.symbol !in marks || marks[p.symbol] == 0 || ExitTrigger(p, marks[p.symbol]).None? then []
    else
      var trigger := ExitTrigger(p, marks[p.symbol]).value;
      CloseDeal(w.state, p, ExitPrice(p, marks[p.symbol], trigger, policy), p.takeProfit == Some(trigger), now, policy)
  }

  function ExitDeals(w: Progress, ps: seq<Position>, marks: Marks, now: int, policy: Policy): seq<Deal>
    decreases |ps|
  {
    if ps == [] then []
    else
      ExitDeal(w, ps[0], marks, now, policy)
      + ExitDeals(ExitAt(w, ps[0], marks, now, policy), ps[1..], marks, now, policy)
  }

  lemma ExitDealExplains(w: Progress, p: Position, marks: Marks, now: int, policy: Policy, quotes: Quotes,
                         symbol: Symbol)
    requires LoadedOk(w.state, 0) && p.qty > 0
    ensures Explains(ExitDeal(w, p, marks, now, policy), w.state, ExitAt(w, p, marks, now, policy).state, quotes,
                     symbol)
  {
    ExplainsNothing(w.state, w.state, quotes, symbol);
    if p.symbol in marks && ExitTrigger(p, marks[p.symbol]).Some? {
      var trigger := ExitTrigger(p, marks[p.symbol]).value;
      CloseDealExplains(w.state, p, ExitPrice(p, marks[p.symbol], trigger, policy), p.takeProfit == Some(trigger),
                        Some(trigger), now, policy, quotes, symbol);
    }
  }

  lemma {:induction false} ExitDealsExplain(w: Progress, ps: seq<Position>, marks: Marks, now: int, policy: Policy,
                                            quotes: Quotes, symbol: Symbol)
    requires LoadedOk(w.state, 0) && MarksOk(marks) && Pending(w.state, ps)
    ensures Explains(ExitDeals(w, ps, marks, now, policy), w.state, ExitAll(w, ps, marks, now, policy).state, quotes,
                     symbol)
    decreases |ps|
  {
    if ps == [] {
      ExplainsNothing(w.state, w.state, quotes, symbol);
    } else {
      var next := ExitAt(w, ps[0], marks, now, policy);
      assert ps[0] in ps && PositionOk(ps[0], 0);
      ExitDealExplains(w, ps[0], marks, now, policy, quotes, symbol);
      ExitAtCloses(w, ps[0], marks, now, policy, 0);
      PendingTail(w.state, ps, next.state);
      ExitDealsExplain(next, ps[1..], marks, now, policy, quotes, symbol);
      ExplainsBoth(ExitDeal(w, ps[0], marks, now, policy), ExitDeals(next, ps[1..], marks, now, policy), w.state,
                   next.state, ExitAll(next, ps[1..], marks, now, policy).state, quotes, symbol);
    }
  }

  function LiquidateDeal(s: State, p: Position, marks: Marks, now: int, policy: Policy): seq<Deal> {
    if MarkOf(marks, p) <= 0 then []
    else
      CloseDeal(s, p, AggressivePrice(Opposite(p.direction), MarkOf(marks, p), policy.liquidationSlippageBps), false,
                now, policy)
  }

  function LiquidateDeals(s: State, ps: seq<Position>, marks: Marks, now: int, policy: Policy): seq<Deal>
    decreases |ps|
  {
    if ps == [] then []
    else
      LiquidateDeal(s, ps[0], marks, now, policy)
      + LiquidateDeals(LiquidateAt(s, ps[0], marks, now, policy), ps[1..], marks, now, policy)
  }

  lemma LiquidateDealExplains(s: State, p: Position, marks: Marks, now: int, policy: Policy, quotes: Quotes,
                              symbol: Symbol)
    requires LoadedOk(s, 0) && p.qty > 0
    ensures Explains(LiquidateDeal(s, p, marks, now, policy), s, LiquidateAt(s, p, marks, now, policy), quotes, symbol)
  {
    ExplainsNothing(s, s, quotes, symbol);
    CloseDealExplains(s, p, AggressivePrice(Opposite(p.direction), MarkOf(marks, p), policy.liquidationSlippageBps),
                      false, None, now, policy, quotes, symbol);
  }

  lemma {:induction false} LiquidateDealsExplain(s: State, ps: seq<Position>, marks: Marks, now: int, policy: Policy,
                                                 quotes: Quotes, symbol: Symbol)
    requires LoadedOk(s, 0) && Pending(s, ps)
    ensures Explains(LiquidateDeals(s, ps, marks, now, policy), s, LiquidateAll(s, ps, marks, now, policy), quotes,
                     symbol)
    decreases |ps|
  {
    if ps == [] {
      ExplainsNothing(s, s, quotes, symbol);
    } else {
      var next := LiquidateAt(s, ps[0], marks, now, policy);
      assert ps[0] in ps && PositionOk(ps[0], 0);
      LiquidateDealExplains(s, ps[0], marks, now, policy, quotes, symbol);
      var o := LiquidateAtCloses(s, ps[0], marks, now, policy, 0);
      PendingTail(s, ps, next);
      LiquidateDealsExplain(next, ps[1..], marks, now, policy, quotes, symbol);
      ExplainsBoth(LiquidateDeal(s, ps[0], marks, now, policy), LiquidateDeals(next, ps[1..], marks, now, policy), s,
                   next,
                   LiquidateAll(next, ps[1..], marks, now, policy), quotes, symbol);
    }
  }

  /** The deals of liquidatePaperPositionsIfNeeded. */
  function LiquidationDeals(s: State, marks: Marks, now: int, policy: Policy): seq<Deal> {
    if MustLiquidate(s, marks, policy) then LiquidateDeals(s, s.positions, marks, now, policy) else []
  }

  lemma LiquidationExplained(s: State, marks: Marks, now: int, policy: Policy, quotes: Quotes, symbol: Symbol)
    requires LoadedOk(s, 0)
    ensures Explains(LiquidationDeals(s, marks, now, policy), s, Liquidate(s, marks, now, policy).state, quotes, symbol)
  {
    ExplainsNothing(s, s, quotes, symbol);
    PendingAtStart(s);
    LiquidateDealsExplain(s, s.positions, marks, now, policy, quotes, symbol);
  }

  // ----- a pass -------------------------------------------------------------------------------

  lemma {:induction false} AccrueKeepsHoldings(w: Progress, i: nat, marks: Marks, now: int, policy: Policy)
    requires i <= |w.state.positions|
    ensures var r := AccrueFrom(w, i, marks, now, policy).state;
            SameHoldings(w.state.positions, r.positions) && r.realizedPnlUsd == w.state.realizedPnlUsd
    decreases |w.state.positions| - i
  {
    if i < |w.state.positions| {
      var next := AccrueAt(w, i, marks, now, policy);
      AccrueAtKeepsHoldings(w, i, marks, now, policy);
      AccrueKeepsHoldings(next, i + 1, marks, now, policy);
      HoldingsChain(w.state.positions, next.state.positions,
                    AccrueFrom(next, i + 1, marks, now, policy).state.positions);
    }
  }

  lemma AccrueAtKeepsHoldings(w: Progress, i: nat, marks: Marks, now: int, policy: Policy)
    requires i < |w.state.positions|
    ensures var r := AccrueAt(w, i, marks, now, policy).state;
            SameHoldings(w.state.positions, r.positions) && r.realizedPnlUsd == w.state.realizedPnlUsd
  {
  }

  lemma HoldingsChain(a: seq<Position>, b: seq<Position>, c: seq<Position>)
    requires SameHoldings(a, b) && SameHoldings(b, c)
    ensures SameHoldings(a, c)
  {
    forall i | 0 <= i < |a| ensures SameHolding(a[i], c[i]) {
      assert SameHolding(a[i], b[i]) && SameHolding(b[i], c[i]);
    }
  }

  /** The account in a pass after funding, after the resting orders, after the exits. */
  function Funded(s: State, marks: Marks, now: int, policy: Policy): Progress {
    Accrue(s, marks, now, policy)
  }

  function TouchedAll(s: State, marks: Marks, now: int, policy: Policy): Progress {
    TouchFrom(Funded(s, marks, now, policy), 0, marks, now, policy)
  }

  function Exited(s: State, marks: Marks, now: int, policy: Policy): Progress {
    var touched := TouchedAll(s, marks, now, policy);
    ExitAll(touched, touched.state.positions, marks, now, policy)
  }

  /** The deals of a pass: fills of resting orders, exits, liquidation. */
  function PassDeals(s: State, feed: Marks, now: int, policy: Policy): seq<Deal> {
    var marks := MarksFor(s, feed);
    if marks == map[] then []
    else
      var touched := TouchedAll(s, marks, now, policy);
      TouchDeals(Funded(s, marks, now, policy), 0, marks, now, policy)
      + ExitDeals(touched, touched.state.positions, marks, now, policy)
      + LiquidationDeals(Exited(s, marks, now, policy).state, marks, now, policy)
  }

  lemma PassExplained(s: State, feed: Marks, now: int, policy: Policy, quotes: Quotes, symbol: Symbol)
    requires LoadedOk(s, 0) && MarksOk(feed)
    ensures Explains(PassDeals(s, feed, now, policy), s, Reconcile(s, feed, now, policy).state, quotes, symbol)
  {
    var marks := MarksFor(s, feed);
    if marks == map[] {
      ExplainsNothing(s, s, quotes, symbol);
    } else {
      var funded := Funded(s, marks, now, policy);
      var touched := TouchedAll(s, marks, now, policy);
      var exited := Exited(s, marks, now, policy);
      FundedExplained(s, marks, now, policy, quotes, symbol);
      TouchDealsExplain(funded, 0, marks, now, policy, quotes, symbol);
      ExplainsBoth([], TouchDeals(funded, 0, marks, now, policy), s, funded.state, touched.state, quotes, symbol);
      TouchFromKeeps(funded, 0, marks, now, policy, 0);
      PendingAtStart(touched.state);
      ExitDealsExplain(touched, touched.state.positions, marks, now, policy, quotes, symbol);
      ExitAllCloses(touched, touched.state.positions, marks, now, policy, 0);
      LiquidationExplained(exited.state, marks, now, policy, quotes, symbol);
      PassChain(s, marks, now, policy, quotes, symbol);
    }
  }

  lemma FundedExplained(s: State, marks: Marks, now: int, policy: Policy, quotes: Quotes, symbol: Symbol)
    requires LoadedOk(s, 0)
    ensures Explains([], s, Funded(s, marks, now, policy).state, quotes, symbol)
    ensures LoadedOk(Funded(s, marks, now, policy).state, 0)
  {
    AccrueFromKeeps(Progress(s, false), 0, marks, now, policy, 0);
    AccrueKeepsHoldings(Progress(s, false), 0, marks, now, policy);
    ExplainsNothing(s, s, quotes, symbol);
    ExplainsNothing(s, AccrueFrom(Progress(s, false), 0, marks, now, policy).state, quotes, symbol);
  }

  lemma PassChain(s: State, marks: Marks, now: int, policy: Policy, quotes: Quotes, symbol: Symbol)
    requires var funded := Funded(s, marks, now, policy);
             var touched := TouchedAll(s, marks, now, policy);
             var exited := Exited(s, marks, now, policy);
             && Explains([] + TouchDeals(funded, 0, marks, now, policy), s, touched.state, quotes, symbol)
             && Explains(ExitDeals(touched, touched.state.positions, marks, now, policy), touched.state, exited.state,
                         quotes, symbol)
             && Explains(LiquidationDeals(exited.state, marks, now, policy), exited.state,
                         Liquidate(exited.state, marks, now, policy).state, quotes, symbol)
    ensures var touched := TouchedAll(s, marks, now, policy);
            Explains(TouchDeals(Funded(s, marks, now, policy), 0, marks, now, policy)
                     + ExitDeals(touched, touched.state.positions, marks, now, policy)
                     + LiquidationDeals(Exited(s, marks, now, policy).state, marks, now, policy),
                     s, Liquidate(Exited(s, marks, now, policy).state, marks, now, policy).state, quotes, symbol)
  {
    var funded := Funded(s, marks, now, policy);
    var touched := TouchedAll(s, marks, now, policy);
    var exited := Exited(s, marks, now, policy);
    var a := TouchDeals(funded, 0, marks, now, policy);
    var b := ExitDeals(touched, touched.state.positions, marks, now, policy);
    assert [] + a == a;
    ExplainsBoth(a, b, s, touched.state, exited.state, quotes, symbol);
    ExplainsBoth(a + b, LiquidationDeals(exited.state, marks, now, policy), s, exited.state,
                 Liquidate(exited.state, marks, now, policy).state, quotes, symbol);
  }

  // ----- calls and runs -----------------------------------------------------------------------

  /** The deals of an order that executes at once: its own fill, and the liquidation check after it. */
  function ExecuteDeals(s: State, o: Order, market: int, now: int, policy: Policy): seq<Deal> {
    var numbered := Numbered(s);
    var fill := PlacedFill(numbered, o, market, now, policy);
    var price := PlacedPrice(o, market, policy);
    DealOf(numbered, o.symbol, TouchQty(o, policy), o.side, o.reduceOnly, price, fill)
    + LiquidationDeals(Executed(numbered, o, fill, price), map[o.symbol := market], now, policy)
  }

  function PlaceDeals(s: State, t: Ticket, market: int, now: int, policy: Policy): seq<Deal> {
    var o := PlacedOrder(s, t, market);
    if Immediate(o, market) then ExecuteDeals(s, o, market, now, policy) else []
  }

  lemma PlaceExplained(s: State, t: Ticket, market: int, now: int, policy: Policy, quotes: Quotes, symbol: Symbol)
    requires LoadedOk(s, 0) && t.symbol != "" && t.qty > 0 && market > 0
    ensures var r := Place(s, t, market, now, policy);
            r.Ok? ==> Explains(PlaceDeals(s, t, market, now, policy), s, r.value, quotes, symbol)
  {
    NewOrderOk(s, t, market);
    var o := PlacedOrder(s, t, market);
    if Immediate(o, market) {
      ExecuteExplained(s, o, market, now, policy, quotes, symbol);
    } else {
      ExplainsNothing(s, Push(Numbered(s), o), quotes, symbol);
    }
  }

  lemma ExecuteExplained(s: State, o: Order, market: int, now: int, policy: Policy, quotes: Quotes, symbol: Symbol)
    requires LoadedOk(s, 0) && OrderOk(o, 0) && o.status.Open? && o.symbol != "" && o.id == s.nextOrderSeq
    requires Immediate(o, market)
    ensures var r := Execute(s, o, market, now, policy);
            r.Ok? ==> Explains(ExecuteDeals(s, o, market, now, policy), s, r.value, quotes, symbol)
  {
    if PlacedFill(Numbered(s), o, market, now, policy).filledQty > 0 {
      ExecutionExplained(s, o, market, now, policy, quotes, symbol);
    }
  }

  lemma ExecutionExplained(s: State, o: Order, market: int, now: int, policy: Policy, quotes: Quotes, symbol: Symbol)
    requires LoadedOk(s, 0) && OrderOk(o, 0) && o.status.Open? && o.symbol != "" && o.id == s.nextOrderSeq
    requires Immediate(o, market)
    requires PlacedFill(Numbered(s), o, market, now, policy).filledQty > 0
    ensures var numbered := Numbered(s);
            var fill := PlacedFill(numbered, o, market, now, policy);
            var price := PlacedPrice(o, market, policy);
            Explains(DealOf(numbered, o.symbol, TouchQty(o, policy), o.side, o.reduceOnly, price, fill)
                     + LiquidationDeals(Executed(numbered, o, fill, price), map[o.symbol := market], now, policy),
                     s, Liquidate(Executed(numbered, o, fill, price), map[o.symbol := market], now, policy).state,
                     quotes, symbol)
  {
    var numbered := Numbered(s);
    var fill := PlacedFill(numbered, o, market, now, policy);
    var price := PlacedPrice(o, market, policy);
    var deal := DealOf(numbered, o.symbol, TouchQty(o, policy), o.side, o.reduceOnly, price, fill);
    var executed := Executed(numbered, o, fill, price);
    TouchLeavesMoreThanOne(o, policy);
    BookExplained(numbered, o.symbol, TouchQty(o, policy), o.side, o.reduceOnly, price,
                  o.kind.Limit? && o.trigger.None?,
                  AttachOptional(o.takeProfit), AttachOptional(o.stopLoss), now, policy, quotes, symbol);
    assert Explains(deal, s, executed, quotes, symbol);
    PlacedFillSound(s, o, market, now, policy, 0);
    ExecutedKeeps(s, o, fill, price, policy, 0);
    LiquidationExplained(executed, map[o.symbol := market], now, policy, quotes, symbol);
    ExplainsBoth(deal, LiquidationDeals(executed, map[o.symbol := market], now, policy), s, executed,
                 Liquidate(executed, map[o.symbol := market], now, policy).state, quotes, symbol);
  }

  /** The deals of a call, as far as it writes the account back. */
  function CallDeals(stored: State, call: Call, feed: Marks, now: int, policy: Policy): seq<Deal> {
    var pass := Loaded(stored, feed, now, policy);
    var first := PassDeals(Coerce(stored), feed, now, policy);
    if Perform(stored, call, feed, now, policy).Nothing? then []
    else if call.PlaceCall? && call.market.Some?
      && Place(pass.state, call.ticket, call.market.value, now, policy).Ok? then
      first + PlaceDeals(pass.state, call.ticket, call.market.value, now, policy)
    else first
  }

  /** Loading changes no holding when every entry price is positive. */
  lemma LoadExplained(stored: State, floor: nat, quotes: Quotes, symbol: Symbol)
    requires StoredOk(stored, floor) && floor > 0
    ensures Explains([], stored, Coerce(stored), quotes, symbol)
  {
    assert forall p :: p in stored.positions ==> PositionOk(p, 1);
    CoercePositionsKeeps(stored.positions);
    var ps, qs := stored.positions, CoercePositions(stored.positions);
    forall i | 0 <= i < |ps| ensures SameHolding(ps[i], qs[i]) {
      assert ps[i] in ps;
    }
    ExplainsNothing(stored, Coerce(stored), quotes, symbol);
  }

  ghost predicate HoldingsKept(pass: Progress, w: Written) {
    w.Account? ==>
      SameHoldings(pass.state.positions, w.state.positions) && w.state.realizedPnlUsd == pass.state.realizedPnlUsd
  }

  lemma EditKeepsHoldings(pass: Progress, e: Edit)
    ensures HoldingsKept(pass, Edited(pass, e))
  {
  }

  lemma CancelKeepsHoldings(pass: Progress, id: int, symbol: Option<Symbol>)
    ensures HoldingsKept(pass, CancelledOne(pass, id, symbol)) && HoldingsKept(pass, CancelledAll(pass, symbol))
  {
  }

  lemma ExitsKeepHoldings(pass: Progress, symbol: Symbol, direction: Option<Direction>, takeProfit: Change,
                          stopLoss: Change)
    ensures HoldingsKept(pass, ExitsSet(pass, symbol, direction, takeProfit, stopLoss))
  {
    var i := FindHeld(pass.state.positions, symbol, direction);
  }

  /** Calls that place nothing leave the holdings to the pass. */
  lemma OthersKeepHoldings(stored: State, call: Call, feed: Marks, now: int, policy: Policy)
    requires !call.PlaceCall?
    ensures HoldingsKept(Loaded(stored, feed, now, policy), Perform(stored, call, feed, now, policy))
  {
    var pass := Loaded(stored, feed, now, policy);
    match call
    case List =>
    case EditCall(e) => EditKeepsHoldings(pass, e);
    case CancelCall(id, symbol) => CancelKeepsHoldings(pass, id, symbol);
    case CancelAllCall(symbol) => CancelKeepsHoldings(pass, 0, symbol);
    case SetExitsCall(symbol, direction, takeProfit, stopLoss) =>
      ExitsKeepHoldings(pass, symbol, direction, takeProfit, stopLoss);
  }

  lemma LoadedExplained(stored: State, feed: Marks, now: int, policy: Policy, floor: nat, quotes: Quotes,
                        symbol: Symbol)
    requires StoredOk(stored, floor) && floor > 0 && MarksOk(feed) && MarksFit(feed, floor) && PolicyFits(policy, floor)
    ensures Explains(PassDeals(Coerce(stored), feed, now, policy), stored, Loaded(stored, feed, now, policy).state,
                     quotes, symbol)
    ensures LoadedOk(Loaded(stored, feed, now, policy).state, 0)
  {
    LoadStored(stored, floor);
    LoadExplained(stored, floor, quotes, symbol);
    assert StoredOk(stored, 0);
    LoadStored(stored, 0);
    PassExplained(Coerce(stored), feed, now, policy, quotes, symbol);
    var deals := PassDeals(Coerce(stored), feed, now, policy);
    ExplainsBoth([], deals, stored, Coerce(stored), Loaded(stored, feed, now, policy).state, quotes, symbol);
    assert [] + deals == deals;
    LoadedKeeps(stored, feed, now, policy, 0);
  }

  /** One call: what it writes back is explained by its deals. */
  lemma CallExplained(stored: State, call: Call, feed: Marks, now: int, policy: Policy, floor: nat, quotes: Quotes,
                      symbol: Symbol)
    requires StoredOk(stored, floor) && floor > 0 && PricesOk(call, feed, floor) && PolicyFits(policy, floor)
    ensures Explains(CallDeals(stored, call, feed, now, policy), stored,
                     After(stored, Perform(stored, call, feed, now, policy)), quotes, symbol)
  {
    var w := Perform(stored, call, feed, now, policy);
    ExplainsNothing(stored, stored, quotes, symbol);
    if w.Account? {
      LoadedExplained(stored, feed, now, policy, floor, quotes, symbol);
      if call.PlaceCall? {
        PlaceCallExplained(stored, call.ticket, call.market, feed, now, policy, quotes, symbol);
      } else {
        OtherCallExplained(stored, call, feed, now, policy, quotes, symbol);
      }
    }
  }

  lemma OtherCallExplained(stored: State, call: Call, feed: Marks, now: int, policy: Policy, quotes: Quotes,
                           symbol: Symbol)
    requires !call.PlaceCall? && Perform(stored, call, feed, now, policy).Account?
    requires Explains(PassDeals(Coerce(stored), feed, now, policy), stored, Loaded(stored, feed, now, policy).state,
                      quotes, symbol)
    ensures Explains(CallDeals(stored, call, feed, now, policy), stored,
                     Perform(stored, call, feed, now, policy).state, quotes, symbol)
  {
    var pass := Loaded(stored, feed, now, policy);
    OthersKeepHoldings(stored, call, feed, now, policy);
    SameHoldingsSame(pass.state.positions, Perform(stored, call, feed, now, policy).state.positions, quotes, symbol);
  }

  lemma PlaceCallExplained(stored: State, t: Ticket, market: Option<int>, feed: Marks, now: int, policy: Policy,
                           quotes: Quotes, symbol: Symbol)
    requires Perform(stored, PlaceCall(t, market), feed, now, policy).Account? && (market.Some? ==> market.value > 0)
    requires LoadedOk(Loaded(stored, feed, now, policy).state, 0)
    requires Explains(PassDeals(Coerce(stored), feed, now, policy), stored, Loaded(stored, feed, now, policy).state,
                      quotes, symbol)
    ensures Explains(CallDeals(stored, PlaceCall(t, market), feed, now, policy), stored,
                     Perform(stored, PlaceCall(t, market), feed, now, policy).state, quotes, symbol)
  {
    var pass := Loaded(stored, feed, now, policy);
    if market.Some? {
      PlaceExplained(pass.state, t, market.value, now, policy, quotes, symbol);
      var r := Place(pass.state, t, market.value, now, policy);
      if r.Ok? {
        ExplainsBoth(PassDeals(Coerce(stored), feed, now, policy), PlaceDeals(pass.state, t, market.value, now, policy),
                     stored, pass.state, r.value, quotes, symbol);
      }
    }
  }

  function RunDeals(stored: State, calls: seq<Occasion>, policy: Policy): seq<Deal> {
    if calls == [] then []
    else
      var c := calls[|calls| - 1];
      RunDeals(stored, calls[..|calls| - 1], policy)
      + CallDeals(Run(stored, calls[..|calls| - 1], policy), c.call, c.feed, c.now, policy)
  }

  /** Over any run and for any marks, realized plus open profit is what the deals earned from their prices
      to the marks, up to their drift; and what is held in a symbol is what was traded in it. */
  lemma {:induction false} RunExplained(stored: State, calls: seq<Occasion>, policy: Policy, floor: nat, quotes: Quotes,
                                        symbol: Symbol)
    requires StoredOk(stored, floor) && floor > 0 && RunOk(calls, floor) && PolicyFits(policy, floor)
    ensures Explains(RunDeals(stored, calls, policy), stored, Run(stored, calls, policy), quotes, symbol)
  {
    if calls == [] {
      ExplainsNothing(stored, stored, quotes, symbol);
    } else {
      var init, c := calls[..|calls| - 1], calls[|calls| - 1];
      var before := Run(stored, init, policy);
      RunExplained(stored, init, policy, floor, quotes, symbol);
      RunKeepsStored(stored, init, policy, floor);
      CallExplained(before, c.call, c.feed, c.now, policy, floor, quotes, symbol);
      ExplainsBoth(RunDeals(stored, init, policy), CallDeals(before, c.call, c.feed, c.now, policy), stored, before,
                   Run(stored, calls, policy), quotes, symbol);
    }
  }

  /** The equity of an account at the marks, exact. */
  function EquityAt(s: State, quotes: Quotes): real {
    s.balanceUsd as real + Open(s.positions, quotes)
  }

  /** The equity after any run: the deposit and what was forgiven, funding received, fees paid, and what
      the deals earned on top of the profit there was, up to their drift. */
  lemma RunEquityIdentity(stored: State, calls: seq<Occasion>, policy: Policy, floor: nat, quotes: Quotes)
    requires StoredOk(stored, floor) && floor > 0 && RunOk(calls, floor) && PolicyFits(policy, floor)
    ensures var end := Run(stored, calls, policy);
            var deals := RunDeals(stored, calls, policy);
            var columns := Deposit(stored) + Forgiven(stored, calls, policy) + end.fundingAccruedUsd - end.feesPaidUsd;
            -Drift(deals)
              <= EquityAt(end, quotes) - columns as real - Profit(stored, quotes) - Earned(deals, quotes)
              <= Drift(deals)
  {
    RunExplained(stored, calls, policy, floor, quotes, "");
    RunConservesDeposit(stored, calls, policy);
  }

  /** From an empty account the equity is the deposit, the columns and the earnings of the deals alone,
      and every holding is the sum of its trades. */
  lemma RunFromNothing(balance: nat, calls: seq<Occasion>, policy: Policy, floor: nat, quotes: Quotes, symbol: Symbol)
    requires floor > 0 && RunOk(calls, floor) && PolicyFits(policy, floor)
    ensures var stored := State(balance, 0, 0, 0, 0, 0, 1, [], []);
            var end := Run(stored, calls, policy);
            var deals := RunDeals(stored, calls, policy);
            var columns := balance + Forgiven(stored, calls, policy) + end.fundingAccruedUsd - end.feesPaidUsd;
            && -Drift(deals) <= EquityAt(end, quotes) - columns as real - Earned(deals, quotes) <= Drift(deals)
            && Holding(end, symbol) == Traded(deals, symbol)
  {
    var stored := State(balance, 0, 0, 0, 0, 0, 1, [], []);
    RunEquityIdentity(stored, calls, policy, floor, quotes);
    RunExplained(stored, calls, policy, floor, quotes, symbol);
  }
}
