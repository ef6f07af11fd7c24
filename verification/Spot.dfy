/** The spot side of a paper account: cash against coins, no margin, no shorts. */
module Spot {
  import opened Wrappers
  import opened FixedPoint
  import opened PaperTypes
  import opened Prices
  import opened Loading
  import Orders
  import Engine

  datatype SpotError =
    ShortNotSupported | InvalidPrice | InvalidQty | InsufficientQuote | InsufficientBase | LimitRequiresPrice

  /** What applyPaperSpotFill returns, and the balance it leaves in the account. */
  datatype SpotOutcome = SpotOutcome(filledQty: int, realizedPnl: int, next: Option<Position>, balance: int)

  /** applyPaperSpotFill */
  function SpotFill(balance: int, current: Option<Position>, symbol: Symbol, side: Side, qty: int, price: int,
                    now: int): Result<SpotOutcome, SpotError> {
    if current.Some? && !current.value.direction.Long? then Err(ShortNotSupported)
    else if price <= 0 then Err(InvalidPrice)
    else if Abs(qty) <= 0 then Err(InvalidQty)
    else if side.Buy? then
      if balance as real + 1.0 < Value(Abs(qty), price) then Err(InsufficientQuote)
      else Ok(SpotOutcome(Abs(qty), 0, Some(Bought(current, symbol, Abs(qty), price, now)),
                          Round(balance as real - Value(Abs(qty), price))))
    else if current.None? || current.value.qty <= 0 || current.value.qty + 1 < Abs(qty) then Err(InsufficientBase)
    else
      var rest := current.value.qty - Abs(qty);
      Ok(SpotOutcome(Abs(qty), Round(Value(Abs(qty), price - current.value.entryPrice)),
                     if rest <= 1 then None else Some(current.value.(qty := rest)),
                     Round(balance as real + Value(Abs(qty), price))))
  }

  function Bought(current: Option<Position>, symbol: Symbol, qty: int, price: int, now: int): Position {
    if current.None? then Position(symbol, Long, qty, price, None, None, None, now)
    else
      var p := current.value;
      p.(qty := p.qty + qty,
         entryPrice := if p.qty + qty == 0 then p.entryPrice
                       else Round((p.entryPrice * p.qty + price * qty) as real / (p.qty + qty) as real))
  }

  /** A fill on the account: cash, realized amount and position. */
  function SpotApply(s: State, symbol: Symbol, side: Side, qty: int, price: int, now: int): Result<State, SpotError> {
    var r := SpotFill(s.balanceUsd, Find(s.positions, symbol), symbol, side, qty, price, now);
    if r.Err? then Err(r.error)
    else Ok(SpotBooked(s, symbol, r.value))
  }

  function SpotBooked(s: State, symbol: Symbol, out: SpotOutcome): State {
    s.(balanceUsd := out.balance,
       realizedPnlUsd := s.realizedPnlUsd + out.realizedPnl,
       positions := Replace(s.positions, symbol, out.next))
  }

  predicate SpotTouched(o: Order, feed: Marks, only: Option<Symbol>) {
    && o.status.Open? && (only.Some? ==> o.symbol == only.value)
    && o.symbol in feed && Marketable(o.side, o.price, feed[o.symbol])
  }

  function SpotFilledOrder(o: Order): Order {
    o.(qty := Abs(o.qty), status := Filled)
  }

  /** One resting order of reconcilePaperSpotState. */
  function SpotVisitAt(s: State, i: nat, feed: Marks, only: Option<Symbol>, now: int): (r: Result<State, SpotError>)
    requires i < |s.orders|
    ensures r.Ok? ==> |r.value.orders| == |s.orders|
  {
    var o := s.orders[i];
    if !SpotTouched(o, feed, only) then Ok(s)
    else
      var r := SpotApply(s, o.symbol, o.side, o.qty, o.price, now);
      if r.Err? then r else Ok(r.value.(orders := r.value.orders[i := SpotFilledOrder(o)]))
  }

  /** The loop of reconcilePaperSpotState: a resting order that cannot be paid for fails the whole pass. */
  function SpotReconcileFrom(s: State, i: nat, feed: Marks, only: Option<Symbol>, now: int): Result<State, SpotError>
    requires i <= |s.orders|
    decreases |s.orders| - i
  {
    if i == |s.orders| then Ok(s)
    else
      var r := SpotVisitAt(s, i, feed, only, now);
      if r.Err? then r else SpotReconcileFrom(r.value, i + 1, feed, only, now)
  }

  /** A new spot order: at the market, or at a limit. */
  datatype SpotTicket = SpotTicket(symbol: Symbol, side: Side, kind: Kind, qty: int, limit: Option<int>)

  /** createPaperOrderState as placePaperSpotOrder calls it */
  function SpotOrder(id: int, t: SpotTicket, qty: int, price: int, status: Status): Order {
    Orders.Settle(Order(id, t.symbol, t.side, t.kind, Abs(qty), price, false, None, None, None, status,
                        Abs(qty), if status.Filled? then Max(0, qty) else 0,
                        if status.Open? then Max(0, qty) else 0, None, 0, 0))
  }

  function SpotPrice(t: SpotTicket, market: int): int {
    if t.kind.Limit? && t.limit.Some? then t.limit.value else market
  }

  predicate SpotRests(t: SpotTicket, market: int) {
    t.kind.Limit? && !Marketable(t.side, SpotPrice(t, market), market)
  }

  /** placePaperSpotOrder, from the reconciled account on */
  function SpotPlace(s: State, t: SpotTicket, market: int, now: int): Result<State, SpotError> {
    if t.kind.Limit? && (t.limit.None? || t.limit.value <= 0) then Err(LimitRequiresPrice)
    else
      var numbered := Engine.Numbered(s);
      var price := SpotPrice(t, market);
      if SpotRests(t, market) then Ok(Engine.Push(numbered, SpotOrder(s.nextOrderSeq, t, t.qty, price, Open)))
      else
        var r := SpotApply(numbered, t.symbol, t.side, t.qty, price, now);
        if r.Err? then r else Ok(Engine.Push(r.value, SpotOrder(s.nextOrderSeq, t, Abs(t.qty), price, Filled)))
  }

  // ----- conservation -------------------------------------------------------------------------

  function CostOf(p: Option<Position>): real {
    if p.Some? then Value(p.value.qty, p.value.entryPrice) else 0.0
  }

  /** What the coins held cost. */
  function CostBasis(ps: seq<Position>): real {
    if ps == [] then 0.0 else CostOf(Some(ps[0])) + CostBasis(ps[1..])
  }

  /** Cash plus cost of coins less realized amounts: what was ever put in. */
  function Invested(s: State): real {
    s.balanceUsd as real + CostBasis(s.positions) - s.realizedPnlUsd as real
  }

  lemma {:induction false} CostOfWithout(ps: seq<Position>, symbol: Symbol)
    requires UniqueSymbols(ps)
    ensures CostBasis(ps) == CostBasis(Without(ps, symbol)) + CostOf(Find(ps, symbol))
  {
    if ps != [] {
      CostOfWithout(ps[1..], symbol);
      if ps[0].symbol == symbol {
        assert Find(ps[1..], symbol).None?;
      } else {
        assert Without(ps, symbol)[1..] == Without(ps[1..], symbol);
      }
    }
  }

  lemma {:induction false} CostOfConcat(a: seq<Position>, b: seq<Position>)
    ensures CostBasis(a + b) == CostBasis(a) + CostBasis(b)
  {
    if a == [] {
      assert a + b == b;
    } else {
      assert (a + b)[1..] == a[1..] + b;
      CostOfConcat(a[1..], b);
    }
  }

  lemma CostOfReplace(ps: seq<Position>, symbol: Symbol, next: Option<Position>)
    requires UniqueSymbols(ps)
    ensures CostBasis(Replace(ps, symbol, next)) == CostBasis(ps) - CostOf(Find(ps, symbol)) + CostOf(next)
  {
    CostOfWithout(ps, symbol);
    CostOfConcat(Without(ps, symbol), AsList(next));
    if next.Some? {
      assert AsList(next)[1..] == [];
    }
  }

  /** Rounding and dust one fill may cost or create: a unit on the cash and realized columns, half a
      unit of price on each coin left, and the cost of one unit of quantity dropped as dust. */
  function SpotDrift(current: Option<Position>, next: Option<Position>): real {
    1.0 + (if next.Some? then Abs(next.value.qty) as real / SCALE / 2.0 else 0.0)
        + (if current.Some? then Abs(current.value.entryPrice) as real / SCALE else 0.0)
  }

  predicate LongHeld(p: Option<Position>) {
    p.Some? ==> p.value.direction.Long? && p.value.qty > 0 && p.value.entryPrice > 0
  }

  lemma AveragePositive(entry: int, held: int, price: int, qty: int)
    requires entry > 0 && held > 0 && price > 0 && qty > 0
    ensures Round((entry * held + price * qty) as real / (held + qty) as real) > 0
  {
    WeightedAtLeast(entry, price, held, qty);
  }

  lemma AverageError(n: int, d: int, cost: int)
    requires d > 0 && n == cost
    ensures -d <= 2 * (d * Round(n as real / d as real) - cost) <= d
  {
    RoundedQuotient(n, d);
  }

  lemma AverageCost(entry: int, held: int, price: int, qty: int)
    requires entry > 0 && held > 0 && price > 0 && qty > 0
    ensures var e := Round((entry * held + price * qty) as real / (held + qty) as real);
            && e > 0
            && -(held + qty) <= 2 * ((held + qty) * e - (held * entry + qty * price)) <= held + qty
  {
    AveragePositive(entry, held, price, qty);
    AverageError(entry * held + price * qty, held + qty, held * entry + qty * price);
  }

  lemma BuyKeepsCost(current: Option<Position>, symbol: Symbol, qty: int, price: int, now: int)
    requires LongHeld(current) && qty > 0 && price > 0
    ensures var next := Bought(current, symbol, qty, price, now);
            var err := CostOf(Some(next)) - (CostOf(current) + Value(qty, price));
            && LongHeld(Some(next))
            && -(next.qty as real / SCALE / 2.0) <= err <= next.qty as real / SCALE / 2.0
  {
    if current.Some? {
      AverageCost(current.value.entryPrice, current.value.qty, price, qty);
    }
  }

  lemma SellKeepsCost(p: Position, qty: int, price: int)
    requires p.qty > 0 && 0 < qty <= p.qty + 1
    ensures var rest := p.qty - qty;
            var kept := if rest <= 1 then 0.0 else Value(rest, p.entryPrice);
            var err := Value(qty, price) + kept - Value(qty, price - p.entryPrice) - Value(p.qty, p.entryPrice);
            var dust := Abs(p.entryPrice) as real / SCALE;
            -dust <= err <= dust
  {
    var rest := p.qty - qty;
    ValueSplits(qty, price, p.entryPrice);
    ValueAdds(qty, rest, p.entryPrice);
  }

  /** A spot fill conserves what was invested, up to rounding and dust; cash never falls below minus
      one unit and positions stay long. */
  lemma SpotFillConserves(balance: int, current: Option<Position>, symbol: Symbol, side: Side, qty: int, price: int,
                          now: int)
    requires LongHeld(current) && qty > 0 && balance >= -1
    ensures var r := SpotFill(balance, current, symbol, side, qty, price, now);
            r.Ok? ==>
              var err := r.value.balance as real + CostOf(r.value.next) - r.value.realizedPnl as real
                          - (balance as real + CostOf(current));
              && LongHeld(r.value.next)
                 && (r.value.next.Some? && (current.Some? ==> current.value.symbol == symbol)
                     ==> r.value.next.value.symbol == symbol)
              && r.value.filledQty == qty
              && r.value.balance >= -1
              && -SpotDrift(current, r.value.next) <= err <= SpotDrift(current, r.value.next)
  {
    var r := SpotFill(balance, current, symbol, side, qty, price, now);
    if r.Ok? {
      RoundFixesUnits(-1);
      ValueNonNegative(qty, price);
      if side.Buy? {
        BuyKeepsCost(current, symbol, qty, price, now);
        RoundMonotone(-1.0, balance as real - Value(qty, price));
      } else {
        SellKeepsCost(current.value, qty, price);
        RoundMonotone(-1.0, balance as real + Value(qty, price));
      }
    }
  }

  ghost predicate SpotOk(s: State) {
    && UniqueSymbols(s.positions)
    && (forall p :: p in s.positions ==> LongHeld(Some(p)))
    && s.balanceUsd >= -1
  }

  datatype SpotTrade = SpotTrade(symbol: Symbol, side: Side, qty: int, price: int, at: int)

  function SpotStep(s: State, t: SpotTrade): State {
    var r := SpotApply(s, t.symbol, t.side, t.qty, t.price, t.at);
    if r.Ok? then r.value else s
  }

  /** Any attempted fills, in order; a refused one changes nothing. */
  function SpotRun(s: State, ts: seq<SpotTrade>): State
    decreases |ts|
  {
    if ts == [] then s else SpotRun(SpotStep(s, ts[0]), ts[1..])
  }

  function SpotRunDrift(s: State, ts: seq<SpotTrade>): real
    decreases |ts|
  {
    if ts == [] then 0.0
    else
      var next := SpotStep(s, ts[0]);
      SpotDrift(Find(s.positions, ts[0].symbol), Find(next.positions, ts[0].symbol)) + SpotRunDrift(next, ts[1..])
  }

  lemma SpotStepConserves(s: State, t: SpotTrade)
    requires SpotOk(s) && t.qty > 0
    ensures var n := SpotStep(s, t);
            var drift := SpotDrift(Find(s.positions, t.symbol), Find(n.positions, t.symbol));
            && SpotOk(n)
            && -drift <= Invested(n) - Invested(s) <= drift
  {
    var current := Find(s.positions, t.symbol);
    SpotFillConserves(s.balanceUsd, current, t.symbol, t.side, t.qty, t.price, t.at);
    var r := SpotFill(s.balanceUsd, current, t.symbol, t.side, t.qty, t.price, t.at);
    if r.Ok? {
      ReplaceIsUpdate(s.positions, t.symbol, r.value.next);
      CostOfReplace(s.positions, t.symbol, r.value.next);
      var ps := Replace(s.positions, t.symbol, r.value.next);
      forall p | p in ps ensures LongHeld(Some(p)) {
        assert p in Without(s.positions, t.symbol) || p in AsList(r.value.next);
      }
    }
  }

  /** Over any run of spot fills, cash plus cost of coins less realized amounts is constant up to the
      accumulated rounding and dust, cash stays above minus one unit, and nothing is ever short. */
  lemma {:induction false} SpotRunConserves(s: State, ts: seq<SpotTrade>)
    requires SpotOk(s) && forall t :: t in ts ==> t.qty > 0
    ensures SpotOk(SpotRun(s, ts))
    ensures -SpotRunDrift(s, ts) <= Invested(SpotRun(s, ts)) - Invested(s) <= SpotRunDrift(s, ts)
    decreases |ts|
  {
    if ts != [] {
      SpotStepConserves(s, ts[0]);
      SpotRunConserves(SpotStep(s, ts[0]), ts[1..]);
    }
  }

  /** Placing an order moves money as one such fill does, or not at all. */
  lemma SpotPlaceConserves(s: State, t: SpotTicket, market: int, now: int)
    requires SpotOk(s) && t.qty > 0
    ensures var r := SpotPlace(s, t, market, now);
            r.Ok? ==>
              var drift := SpotDrift(Find(s.positions, t.symbol), Find(r.value.positions, t.symbol));
              && SpotOk(r.value)
              && -drift <= Invested(r.value) - Invested(s) <= drift
              && (SpotRests(t, market) ==> Invested(r.value) == Invested(s) && r.value.positions == s.positions)
  {
    SpotStepConserves(Engine.Numbered(s), SpotTrade(t.symbol, t.side, t.qty, SpotPrice(t, market), now));
  }

  // ----- the pass over resting orders ---------------------------------------------------------

  /** The trades the pass attempts, from the i-th order on. */
  function Attempts(os: seq<Order>, i: nat, feed: Marks, only: Option<Symbol>, now: int): seq<SpotTrade>
    requires i <= |os|
    decreases |os| - i
  {
    if i == |os| then []
    else
      var rest := Attempts(os, i + 1, feed, only, now);
      if SpotTouched(os[i], feed, only) then [AttemptOf(os[i], now)] + rest else rest
  }

  /** Every trade is accepted by the account the earlier ones leave. */
  predicate AllAccepted(s: State, ts: seq<SpotTrade>)
    decreases |ts|
  {
    ts == [] || (SpotApply(s, ts[0].symbol, ts[0].side, ts[0].qty, ts[0].price, ts[0].at).Ok?
                 && AllAccepted(SpotStep(s, ts[0]), ts[1..]))
  }

  lemma {:induction false} AttemptsSkipDone(os: seq<Order>, i: nat, j: nat, o: Order, feed: Marks,
                                            only: Option<Symbol>, now: int)
    requires i < j <= |os|
    ensures Attempts(os[i := o], j, feed, only, now) == Attempts(os, j, feed, only, now)
    decreases |os| - j
  {
    if j < |os| {
      AttemptsSkipDone(os, i, j + 1, o, feed, only, now);
    }
  }

  /** Moving orders about does not change what a trade does to the money. */
  lemma StepIgnoresOrders(s: State, os: seq<Order>, t: SpotTrade)
    ensures SpotStep(s.(orders := os), t) == SpotStep(s, t).(orders := os)
    ensures SpotApply(s.(orders := os), t.symbol, t.side, t.qty, t.price, t.at).Ok?
         == SpotApply(s, t.symbol, t.side, t.qty, t.price, t.at).Ok?
  {
  }

  lemma {:induction false} RunIgnoresOrders(s: State, os: seq<Order>, ts: seq<SpotTrade>)
    ensures SpotRun(s.(orders := os), ts) == SpotRun(s, ts).(orders := os)
    decreases |ts|
  {
    if ts != [] {
      StepIgnoresOrders(s, os, ts[0]);
      RunIgnoresOrders(SpotStep(s, ts[0]), os, ts[1..]);
    }
  }

  lemma {:induction false} AcceptedIgnoresOrders(s: State, os: seq<Order>, ts: seq<SpotTrade>)
    ensures AllAccepted(s.(orders := os), ts) == AllAccepted(s, ts)
    decreases |ts|
  {
    if ts != [] {
      StepIgnoresOrders(s, os, ts[0]);
      AcceptedIgnoresOrders(SpotStep(s, ts[0]), os, ts[1..]);
    }
  }

  /** The result is that of the run of trades, but for the list of orders: it succeeds exactly when
      each of them is accepted in turn, and then has moved the money as they do. */
  predicate RunsAs(r: Result<State, SpotError>, s: State, ts: seq<SpotTrade>) {
    && (r.Ok? <==> AllAccepted(s, ts))
    && (r.Ok? ==> r.value == SpotRun(s, ts).(orders := r.value.orders))
  }

  lemma PassStep(s: State, t: SpotTrade, os: seq<Order>, rest: seq<SpotTrade>, r: Result<State, SpotError>)
    requires SpotApply(s, t.symbol, t.side, t.qty, t.price, t.at).Ok?
    requires RunsAs(r, SpotStep(s, t).(orders := os), rest)
    ensures RunsAs(r, s, [t] + rest)
  {
    assert ([t] + rest)[1..] == rest;
    RunIgnoresOrders(SpotStep(s, t), os, rest);
    AcceptedIgnoresOrders(SpotStep(s, t), os, rest);
  }

  lemma SpotReconcileUnfolds(s: State, i: nat, feed: Marks, only: Option<Symbol>, now: int)
    requires i < |s.orders|
    ensures var r := SpotVisitAt(s, i, feed, only, now);
            SpotReconcileFrom(s, i, feed, only, now)
              == if r.Err? then r else SpotReconcileFrom(r.value, i + 1, feed, only, now)
  {
  }

  lemma SpotReconcileSkips(s: State, i: nat, feed: Marks, only: Option<Symbol>, now: int)
    requires i < |s.orders| && !SpotTouched(s.orders[i], feed, only)
    ensures SpotReconcileFrom(s, i, feed, only, now) == SpotReconcileFrom(s, i + 1, feed, only, now)
  {
  }

  lemma SpotReconcileEnds(s: State, feed: Marks, only: Option<Symbol>, now: int)
    ensures SpotReconcileFrom(s, |s.orders|, feed, only, now) == Ok(s)
    ensures RunsAs(Ok(s), s, Attempts(s.orders, |s.orders|, feed, only, now))
  {
  }

  function AttemptOf(o: Order, now: int): SpotTrade {
    SpotTrade(o.symbol, o.side, o.qty, o.price, now)
  }

  lemma VisitTouched(s: State, i: nat, feed: Marks, only: Option<Symbol>, now: int)
    requires i < |s.orders| && SpotTouched(s.orders[i], feed, only)
    ensures var t := AttemptOf(s.orders[i], now);
            var a := SpotApply(s, t.symbol, t.side, t.qty, t.price, t.at);
            SpotVisitAt(s, i, feed, only, now)
            == if a.Err? then a else Ok(SpotStep(s, t).(orders := s.orders[i := SpotFilledOrder(s.orders[i])]))
  {
  }

  lemma AttemptsUnfold(os: seq<Order>, i: nat, feed: Marks, only: Option<Symbol>, now: int)
    requires i < |os|
    ensures var rest := Attempts(os, i + 1, feed, only, now);
            Attempts(os, i, feed, only, now)
            == if SpotTouched(os[i], feed, only) then [AttemptOf(os[i], now)] + rest else rest
  {
  }

  lemma RefusedRun(error: SpotError, s: State, t: SpotTrade, rest: seq<SpotTrade>)
    requires SpotApply(s, t.symbol, t.side, t.qty, t.price, t.at).Err?
    ensures RunsAs(Err(error), s, [t] + rest)
  {
  }

  /** A pass succeeds exactly when the account can pay for every touched order in turn, and then
      moves the money as that run of trades does; one order it cannot pay for fails the whole pass. */
  lemma {:induction false} SpotPassIsRun(s: State, i: nat, feed: Marks, only: Option<Symbol>, now: int)
    requires i <= |s.orders|
    ensures RunsAs(SpotReconcileFrom(s, i, feed, only, now), s, Attempts(s.orders, i, feed, only, now))
    decreases |s.orders| - i
  {
    if i < |s.orders| {
      AttemptsUnfold(s.orders, i, feed, only, now);
      if SpotTouched(s.orders[i], feed, only) {
        var next := SpotStep(s, AttemptOf(s.orders[i], now)).(orders := s.orders[i := SpotFilledOrder(s.orders[i])]);
        VisitTouched(s, i, feed, only, now);
        if SpotVisitAt(s, i, feed, only, now).Ok? {
          SpotPassIsRun(next, i + 1, feed, only, now);
        }
        TouchedRuns(s, i, next, feed, only, now);
      } else {
        SpotPassIsRun(s, i + 1, feed, only, now);
        SpotReconcileSkips(s, i, feed, only, now);
      }
    } else {
      SpotReconcileEnds(s, feed, only, now);
    }
  }

  lemma TouchedRuns(s: State, i: nat, next: State, feed: Marks, only: Option<Symbol>, now: int)
    requires i < |s.orders| && SpotTouched(s.orders[i], feed, only)
    requires next == SpotStep(s, AttemptOf(s.orders[i], now)).(orders := s.orders[i := SpotFilledOrder(s.orders[i])])
    requires SpotVisitAt(s, i, feed, only, now).Ok? ==>
               RunsAs(SpotReconcileFrom(next, i + 1, feed, only, now), next,
                      Attempts(next.orders, i + 1, feed, only, now))
    ensures RunsAs(SpotReconcileFrom(s, i, feed, only, now), s,
                   [AttemptOf(s.orders[i], now)] + Attempts(s.orders, i + 1, feed, only, now))
  {
    var t := AttemptOf(s.orders[i], now);
    var rest := Attempts(s.orders, i + 1, feed, only, now);
    VisitTouched(s, i, feed, only, now);
    SpotReconcileUnfolds(s, i, feed, only, now);
    var visited := SpotVisitAt(s, i, feed, only, now);
    if visited.Ok? {
      AttemptsSkipDone(s.orders, i, i + 1, SpotFilledOrder(s.orders[i]), feed, only, now);
      PassStep(s, t, next.orders, rest, SpotReconcileFrom(next, i + 1, feed, only, now));
    } else {
      RefusedRun(visited.error, s, t, rest);
    }
  }

  /** What a pass over the resting orders conserves. */
  lemma SpotPassConserves(s: State, feed: Marks, only: Option<Symbol>, now: int)
    requires SpotOk(s) && forall o :: o in s.orders ==> o.qty > 0
    ensures var r := SpotReconcileFrom(s, 0, feed, only, now);
            var drift := SpotRunDrift(s, Attempts(s.orders, 0, feed, only, now));
            r.Ok? ==> SpotOk(r.value) && -drift <= Invested(r.value) - Invested(s) <= drift
  {
    SpotPassIsRun(s, 0, feed, only, now);
    AttemptsPositive(s.orders, 0, feed, only, now);
    SpotRunConserves(s, Attempts(s.orders, 0, feed, only, now));
  }

  lemma {:induction false} AttemptsPositive(os: seq<Order>, i: nat, feed: Marks, only: Option<Symbol>, now: int)
    requires i <= |os| && forall o :: o in os ==> o.qty > 0
    ensures forall t :: t in Attempts(os, i, feed, only, now) ==> t.qty > 0
    decreases |os| - i
  {
    if i < |os| {
      assert os[i] in os;
      AttemptsPositive(os, i + 1, feed, only, now);
    }
  }
}
