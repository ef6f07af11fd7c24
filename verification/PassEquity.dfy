/** A whole pass never raises the equity at its own marks, but for funding and rounding. */
module PassEquity {
  import opened Wrappers
  import opened FixedPoint
  import opened PaperTypes
  import opened Prices
  import opened Orders
  import opened Loading
  import opened Engine
  import opened Accounts
  import opened Fills
  import opened RunEquity
  import Equity
  import Ledger
  import MarkToMarket

  /** A mark is known for every position. */
  predicate Marked(ps: seq<Position>, marks: Marks) {
    forall p :: p in ps ==> p.symbol in marks
  }

  /** The quotes are the marks, where there are any. */
  ghost predicate Quoted(quotes: Quotes, marks: Marks) {
    forall x :: x in marks ==> quotes(x) == marks[x]
  }

  // ----- no deal earns anything at the marks of the pass --------------------------------------

  lemma DealLoses(s: State, symbol: Symbol, qty: int, side: Side, reduceOnly: bool, price: int, fill: FillResult,
                  quotes: Quotes)
    requires qty > 0 && NotBetter(side, price, quotes(symbol))
    ensures Earned(DealOf(s, symbol, qty, side, reduceOnly, price, fill), quotes) <= 0.0
  {
    var delta := EffectiveDelta(Holding(s, symbol), side, qty, reduceOnly);
    Equity.LosingValue(delta, quotes(symbol) - price);
    SingleDeal(Deal(symbol, delta, price, fill.next), quotes, symbol);
  }

  lemma EarnedAppend(a: seq<Deal>, b: seq<Deal>, quotes: Quotes)
    requires Earned(a, quotes) <= 0.0 && Earned(b, quotes) <= 0.0
    ensures Earned(a + b, quotes) <= 0.0
  {
    DealsAppend(a, b, quotes, "");
  }

  lemma TouchDealLoses(w: Progress, i: nat, marks: Marks, now: int, policy: Policy, quotes: Quotes)
    requires i < |w.state.orders| && LoadedOk(w.state, 0)
    requires MarksOk(marks) && SlipsAgainst(policy) && Quoted(quotes, marks)
    ensures Earned(TouchDeal(w, i, marks, now, policy), quotes) <= 0.0
  {
    var o := w.state.orders[i];
    if Touched(o, marks, policy) {
      assert o in w.state.orders;
      TouchLeavesMoreThanOne(o, policy);
      Equity.RestingPriceNotBetter(o, marks, policy);
      DealLoses(w.state, o.symbol, TouchQty(o, policy), o.side, o.reduceOnly, RestingPrice(o, marks[o.symbol], policy),
                RestingFill(w.state, o, marks[o.symbol], now, policy), quotes);
    }
  }

  lemma TouchDealsUnfold(w: Progress, i: nat, marks: Marks, now: int, policy: Policy)
    requires i < |w.state.orders|
    ensures TouchDeals(w, i, marks, now, policy)
         == TouchDeal(w, i, marks, now, policy)
            + TouchDeals(TouchAt(w, i, marks, now, policy), i + 1, marks, now, policy)
  {
  }

  lemma {:induction false} TouchDealsLose(w: Progress, i: nat, marks: Marks, now: int, policy: Policy, quotes: Quotes)
    requires i <= |w.state.orders| && LoadedOk(w.state, 0)
    requires MarksOk(marks) && SlipsAgainst(policy) && Quoted(quotes, marks)
    ensures Earned(TouchDeals(w, i, marks, now, policy), quotes) <= 0.0
    decreases |w.state.orders| - i, 1
  {
    if i < |w.state.orders| {
      TouchDealLoses(w, i, marks, now, policy, quotes);
      LaterDealsLose(w, i, marks, now, policy, quotes);
      TouchDealsUnfold(w, i, marks, now, policy);
      EarnedAppend(TouchDeal(w, i, marks, now, policy),
                   TouchDeals(TouchAt(w, i, marks, now, policy), i + 1, marks, now, policy), quotes);
    }
  }

  lemma TouchAtLoaded(w: Progress, i: nat, marks: Marks, now: int, policy: Policy, next: Progress)
    requires i < |w.state.orders| && LoadedOk(w.state, 0) && next == TouchAt(w, i, marks, now, policy)
    ensures LoadedOk(next.state, 0) && |next.state.orders| == |w.state.orders|
  {
    TouchAtKeeps(w, i, marks, now, policy, 0);
  }

  lemma {:induction false} LaterDealsLose(w: Progress, i: nat, marks: Marks, now: int, policy: Policy, quotes: Quotes)
    requires i < |w.state.orders| && LoadedOk(w.state, 0)
    requires MarksOk(marks) && SlipsAgainst(policy) && Quoted(quotes, marks)
    ensures Earned(TouchDeals(TouchAt(w, i, marks, now, policy), i + 1, marks, now, policy), quotes) <= 0.0
    decreases |w.state.orders| - i, 0
  {
    var next := TouchAt(w, i, marks, now, policy);
    TouchAtLoaded(w, i, marks, now, policy, next);
    TouchDealsLose(next, i + 1, marks, now, policy, quotes);
  }

  lemma ExitDealLoses(w: Progress, p: Position, marks: Marks, now: int, policy: Policy, quotes: Quotes)
    requires p.qty > 0 && MarksOk(marks) && SlipsAgainst(policy) && Quoted(quotes, marks)
    ensures Earned(ExitDeal(w, p, marks, now, policy), quotes) <= 0.0
  {
    if p.symbol in marks && ExitTrigger(p, marks[p.symbol]).Some? {
      var trigger := ExitTrigger(p, marks[p.symbol]).value;
      var price := ExitPrice(p, marks[p.symbol], trigger, policy);
      Equity.ExitPriceNotBetter(p, marks[p.symbol], policy);
      DealLoses(w.state, p.symbol, p.qty, Opposite(p.direction), true, price,
                CloseFill(w.state, p, price, p.takeProfit == Some(trigger), now, policy), quotes);
    }
  }

  lemma {:induction false} ExitDealsLose(w: Progress, ps: seq<Position>, marks: Marks, now: int, policy: Policy,
                                         quotes: Quotes)
    requires (forall p :: p in ps ==> p.qty > 0) && MarksOk(marks) && SlipsAgainst(policy) && Quoted(quotes, marks)
    ensures Earned(ExitDeals(w, ps, marks, now, policy), quotes) <= 0.0
    decreases |ps|
  {
    if ps != [] {
      var next := ExitAt(w, ps[0], marks, now, policy);
      ExitDealLoses(w, ps[0], marks, now, policy, quotes);
      ExitDealsLose(next, ps[1..], marks, now, policy, quotes);
      EarnedAppend(ExitDeal(w, ps[0], marks, now, policy), ExitDeals(next, ps[1..], marks, now, policy), quotes);
    }
  }

  lemma LiquidateDealLoses(s: State, p: Position, marks: Marks, now: int, policy: Policy, quotes: Quotes)
    requires p.qty > 0 && p.symbol in marks && SlipsAgainst(policy) && Quoted(quotes, marks)
    ensures Earned(LiquidateDeal(s, p, marks, now, policy), quotes) <= 0.0
  {
    if marks[p.symbol] > 0 {
      var price := AggressivePrice(Opposite(p.direction), marks[p.symbol], policy.liquidationSlippageBps);
      AggressiveNotBetter(Opposite(p.direction), marks[p.symbol], policy.liquidationSlippageBps);
      DealLoses(s, p.symbol, p.qty, Opposite(p.direction), true, price, CloseFill(s, p, price, false, now, policy),
                quotes);
    }
  }

  lemma {:induction false} LiquidateDealsLose(s: State, ps: seq<Position>, marks: Marks, now: int, policy: Policy,
                                              quotes: Quotes)
    requires (forall p :: p in ps ==> p.qty > 0) && Marked(ps, marks) && SlipsAgainst(policy) && Quoted(quotes, marks)
    ensures Earned(LiquidateDeals(s, ps, marks, now, policy), quotes) <= 0.0
    decreases |ps|
  {
    if ps != [] {
      var next := LiquidateAt(s, ps[0], marks, now, policy);
      assert ps[0] in ps;
      LiquidateDealLoses(s, ps[0], marks, now, policy, quotes);
      LiquidateDealsLose(next, ps[1..], marks, now, policy, quotes);
      EarnedAppend(LiquidateDeal(s, ps[0], marks, now, policy), LiquidateDeals(next, ps[1..], marks, now, policy),
                   quotes);
    }
  }

  // ----- every position the pass holds has a mark ---------------------------------------------

  lemma TouchAtMarked(w: Progress, i: nat, marks: Marks, now: int, policy: Policy)
    requires i < |w.state.orders| && LoadedOk(w.state, 0) && Marked(w.state.positions, marks)
    ensures Marked(TouchAt(w, i, marks, now, policy).state.positions, marks)
  {
    var o := w.state.orders[i];
    if Touched(o, marks, policy) {
      assert o in w.state.orders;
      TouchLeavesMoreThanOne(o, policy);
      OrderFillSound(w.state, o.symbol, TouchQty(o, policy), o.side, o.reduceOnly,
                     RestingPrice(o, marks[o.symbol], policy), o.kind.Limit? && o.trigger.None?, Set(o.takeProfit),
                     Set(o.stopLoss), now, policy, 0);
    }
  }

  lemma {:induction false} TouchFromMarked(w: Progress, i: nat, marks: Marks, now: int, policy: Policy)
    requires i <= |w.state.orders| && LoadedOk(w.state, 0) && Marked(w.state.positions, marks)
    ensures Marked(TouchFrom(w, i, marks, now, policy).state.positions, marks)
    decreases |w.state.orders| - i
  {
    if i < |w.state.orders| {
      TouchAtMarked(w, i, marks, now, policy);
      TouchAtKeeps(w, i, marks, now, policy, 0);
      TouchFromMarked(TouchAt(w, i, marks, now, policy), i + 1, marks, now, policy);
    }
  }

  /** Closing leaves only positions of symbols that were held. */
  lemma ClosingMarked(ps: seq<Position>, qs: seq<Position>, marks: Marks)
    requires Marked(ps, marks) && forall t :: Find(qs, t) == None || Find(qs, t) == Find(ps, t)
    ensures Marked(qs, marks)
  {
    forall q | q in qs ensures q.symbol in marks {
      assert Find(qs, q.symbol).Some?;
      assert Find(ps, q.symbol).value in ps;
    }
  }

  // ----- the pass -----------------------------------------------------------------------------

  lemma FundedMarked(s: State, feed: Marks, now: int, policy: Policy)
    requires LoadedOk(s, 0) && Marked(s.positions, feed)
    ensures Marked(Funded(s, MarksFor(s, feed), now, policy).state.positions, MarksFor(s, feed))
  {
    var marks := MarksFor(s, feed);
    AccrueKeepsHoldings(Progress(s, false), 0, marks, now, policy);
    var r := Funded(s, marks, now, policy).state.positions;
    forall p | p in r ensures p.symbol in marks {
      var k :| 0 <= k < |r| && r[k] == p;
      assert s.positions[k] in s.positions && s.positions[k].symbol == p.symbol;
    }
  }

  lemma TouchedLoses(s: State, feed: Marks, now: int, policy: Policy, quotes: Quotes)
    requires LoadedOk(s, 0) && MarksOk(feed) && Marked(s.positions, feed)
    requires SlipsAgainst(policy) && Quoted(quotes, feed)
    ensures var marks := MarksFor(s, feed);
            var touched := TouchedAll(s, marks, now, policy).state;
            && Earned(TouchDeals(Funded(s, marks, now, policy), 0, marks, now, policy), quotes) <= 0.0
            && LoadedOk(touched, 0) && Marked(touched.positions, marks)
  {
    var marks := MarksFor(s, feed);
    var funded := Funded(s, marks, now, policy);
    FundedExplained(s, marks, now, policy, quotes, "");
    FundedMarked(s, feed, now, policy);
    TouchDealsLose(funded, 0, marks, now, policy, quotes);
    TouchFromKeeps(funded, 0, marks, now, policy, 0);
    TouchFromMarked(funded, 0, marks, now, policy);
  }

  lemma ClosedLoses(w: Progress, marks: Marks, now: int, policy: Policy, quotes: Quotes)
    requires LoadedOk(w.state, 0) && MarksOk(marks) && Marked(w.state.positions, marks)
    requires SlipsAgainst(policy) && Quoted(quotes, marks)
    ensures Earned(ExitDeals(w, w.state.positions, marks, now, policy), quotes) <= 0.0
    ensures var exited := ExitAll(w, w.state.positions, marks, now, policy).state;
            Earned(LiquidationDeals(exited, marks, now, policy), quotes) <= 0.0
  {
    var exited := ExitAll(w, w.state.positions, marks, now, policy).state;
    PendingAtStart(w.state);
    ExitDealsLose(w, w.state.positions, marks, now, policy, quotes);
    ExitAllCloses(w, w.state.positions, marks, now, policy, 0);
    ClosingMarked(w.state.positions, exited.positions, marks);
    LiquidateDealsLose(exited, exited.positions, marks, now, policy, quotes);
  }

  /** None of the deals of a pass earns anything at its marks. */
  lemma PassLoses(s: State, feed: Marks, now: int, policy: Policy, quotes: Quotes)
    requires LoadedOk(s, 0) && MarksOk(feed) && Marked(s.positions, feed)
    requires SlipsAgainst(policy) && Quoted(quotes, feed)
    ensures Earned(PassDeals(s, feed, now, policy), quotes) <= 0.0
  {
    var marks := MarksFor(s, feed);
    if marks != map[] {
      var touched := TouchedAll(s, marks, now, policy);
      var touches := TouchDeals(Funded(s, marks, now, policy), 0, marks, now, policy);
      var exits := ExitDeals(touched, touched.state.positions, marks, now, policy);
      TouchedLoses(s, feed, now, policy, quotes);
      ClosedLoses(touched, marks, now, policy, quotes);
      EarnedAppend(touches, exits, quotes);
      EarnedAppend(touches + exits, LiquidationDeals(Exited(s, marks, now, policy).state, marks, now, policy), quotes);
    }
  }

  /** A pass over an account whose positions the feed has marks for raises its equity at those marks by
      no more than the funding received less the fees paid, up to the drift of its fills. */
  lemma PassNeverEnriches(s: State, feed: Marks, now: int, policy: Policy, quotes: Quotes)
    requires LoadedOk(s, 0) && MarksOk(feed) && Marked(s.positions, feed)
    requires SlipsAgainst(policy) && Quoted(quotes, feed)
    ensures var r := Reconcile(s, feed, now, policy).state;
            var columns := (r.fundingAccruedUsd - s.fundingAccruedUsd) - (r.feesPaidUsd - s.feesPaidUsd);
            EquityAt(r, quotes) - EquityAt(s, quotes) <= columns as real + Drift(PassDeals(s, feed, now, policy))
  {
    PassExplained(s, feed, now, policy, quotes, "");
    PassLoses(s, feed, now, policy, quotes);
    Ledger.ReconcileConserves(s, feed, now, policy);
  }
}
