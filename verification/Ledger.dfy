/** Whole runs of the perpetual engine: money is neither made nor lost outside the ledger's own
    columns, and the account stays well formed. */
module Ledger {
  import opened Wrappers
  import opened FixedPoint
  import opened PaperTypes
  import opened Prices
  import opened Orders
  import opened Loading
  import opened Engine
  import opened Accounts
  import Fills

  /** What the balance would be had nothing been realized, funded or charged. */
  function Deposit(s: State): int {
    s.balanceUsd - s.realizedPnlUsd - s.fundingAccruedUsd + s.feesPaidUsd
  }

  /** A step moves money only between the ledger's columns, and with fees that are not negative the fee
      column never falls. */
  predicate Conserves(s: State, r: State, policy: Policy) {
    Deposit(r) == Deposit(s) && (FeesOk(policy) ==> r.feesPaidUsd >= s.feesPaidUsd)
  }

  lemma BookConserves(s: State, symbol: Symbol, fill: FillResult, price: int, policy: Policy)
    requires FeesOk(policy) ==> fill.feeUsd >= 0
    ensures Conserves(s, Book(s, symbol, fill, price), policy)
  {
  }

  lemma FillFeeFits(s: State, symbol: Symbol, qty: int, side: Side, reduceOnly: bool, price: int, maker: bool,
                    takeProfit: Attached, stopLoss: Attached, now: int, policy: Policy)
    ensures var r := OrderFill(s, symbol, qty, side, reduceOnly, price, maker, takeProfit, stopLoss, now, policy);
            FeesOk(policy) ==> r.feeUsd >= 0
  {
    var fill := Fills.ApplyFill(Find(s.positions, symbol), symbol, qty, side, reduceOnly, price, now);
    if FeesOk(policy) {
      FeeNonNegative(Value(fill.filledQty, price), maker, policy);
    }
  }

  lemma {:induction false} AccrueConserves(w: Progress, i: nat, marks: Marks, now: int, policy: Policy)
    requires i <= |w.state.positions|
    ensures Conserves(w.state, AccrueFrom(w, i, marks, now, policy).state, policy)
    decreases |w.state.positions| - i
  {
    if i < |w.state.positions| {
      AccrueConserves(AccrueAt(w, i, marks, now, policy), i + 1, marks, now, policy);
    }
  }

  lemma TouchAtConserves(w: Progress, i: nat, marks: Marks, now: int, policy: Policy)
    requires i < |w.state.orders|
    ensures Conserves(w.state, TouchAt(w, i, marks, now, policy).state, policy)
  {
    var o := w.state.orders[i];
    if Touched(o, marks, policy) {
      var price := RestingPrice(o, marks[o.symbol], policy);
      FillFeeFits(w.state, o.symbol, TouchQty(o, policy), o.side, o.reduceOnly, price, o.kind.Limit? && o.trigger.None?,
                  Set(o.takeProfit), Set(o.stopLoss), now, policy);
      BookConserves(w.state, o.symbol, RestingFill(w.state, o, marks[o.symbol], now, policy), price, policy);
    }
  }

  lemma {:induction false} TouchConserves(w: Progress, i: nat, marks: Marks, now: int, policy: Policy)
    requires i <= |w.state.orders|
    ensures Conserves(w.state, TouchFrom(w, i, marks, now, policy).state, policy)
    decreases |w.state.orders| - i
  {
    if i < |w.state.orders| {
      TouchAtConserves(w, i, marks, now, policy);
      TouchConserves(TouchAt(w, i, marks, now, policy), i + 1, marks, now, policy);
    }
  }

  lemma CloseConserves(s: State, p: Position, price: int, maker: bool, trigger: Option<int>, now: int, policy: Policy)
    ensures Conserves(s, CloseBooked(s, p, CloseFill(s, p, price, maker, now, policy), price, trigger), policy)
  {
    FillFeeFits(s, p.symbol, p.qty, Opposite(p.direction), true, price, maker, Set(p.takeProfit), Set(p.stopLoss), now,
                policy);
    BookConserves(s, p.symbol, CloseFill(s, p, price, maker, now, policy), price, policy);
  }

  lemma ExitAtConserves(w: Progress, p: Position, marks: Marks, now: int, policy: Policy)
    ensures Conserves(w.state, ExitAt(w, p, marks, now, policy).state, policy)
  {
    if p.symbol in marks && ExitTrigger(p, marks[p.symbol]).Some? {
      var trigger := ExitTrigger(p, marks[p.symbol]).value;
      var price := ExitPrice(p, marks[p.symbol], trigger, policy);
      CloseConserves(w.state, p, price, p.takeProfit == Some(trigger), Some(trigger), now, policy);
    }
  }

  lemma {:induction false} ExitConserves(w: Progress, ps: seq<Position>, marks: Marks, now: int, policy: Policy)
    ensures Conserves(w.state, ExitAll(w, ps, marks, now, policy).state, policy)
    decreases |ps|
  {
    if ps != [] {
      ExitAtConserves(w, ps[0], marks, now, policy);
      ExitConserves(ExitAt(w, ps[0], marks, now, policy), ps[1..], marks, now, policy);
    }
  }

  lemma {:induction false} LiquidateAllConserves(s: State, ps: seq<Position>, marks: Marks, now: int, policy: Policy)
    ensures Conserves(s, LiquidateAll(s, ps, marks, now, policy), policy)
    decreases |ps|
  {
    if ps != [] {
      var p := ps[0];
      CloseConserves(s, p, AggressivePrice(Opposite(p.direction), MarkOf(marks, p), policy.liquidationSlippageBps),
                     false, None, now, policy);
      LiquidateAllConserves(LiquidateAt(s, p, marks, now, policy), ps[1..], marks, now, policy);
    }
  }

  lemma LiquidateConserves(s: State, marks: Marks, now: int, policy: Policy)
    ensures Conserves(s, Liquidate(s, marks, now, policy).state, policy)
  {
    LiquidateAllConserves(s, s.positions, marks, now, policy);
  }

  /** A whole pass: funding, fills, exits, liquidation. */
  lemma ReconcileConserves(s: State, feed: Marks, now: int, policy: Policy)
    ensures Conserves(s, Reconcile(s, feed, now, policy).state, policy)
  {
    var marks := MarksFor(s, feed);
    var funded := Accrue(s, marks, now, policy);
    AccrueConserves(Progress(s, false), 0, marks, now, policy);
    var touched := TouchFrom(funded, 0, marks, now, policy);
    TouchConserves(funded, 0, marks, now, policy);
    var exited := ExitAll(touched, touched.state.positions, marks, now, policy);
    ExitConserves(touched, touched.state.positions, marks, now, policy);
    LiquidateConserves(exited.state, marks, now, policy);
  }

  lemma FinishConserves(s: State, o: Order, fill: FillResult, price: int, market: int, now: int, policy: Policy)
    requires FeesOk(policy) ==> fill.feeUsd >= 0
    ensures var r := Finish(s, o, fill, price, market, now, policy); r.Ok? ==> Conserves(s, r.value, policy)
  {
    BookConserves(s, o.symbol, fill, price, policy);
    LiquidateConserves(Executed(s, o, fill, price), map[o.symbol := market], now, policy);
  }

  lemma ExecuteConserves(s: State, o: Order, market: int, now: int, policy: Policy)
    ensures var r := Execute(s, o, market, now, policy); r.Ok? ==> Conserves(s, r.value, policy)
  {
    var numbered := Numbered(s);
    FillFeeFits(numbered, o.symbol, TouchQty(o, policy), o.side, o.reduceOnly, PlacedPrice(o, market, policy),
                o.kind.Limit? && o.trigger.None?, AttachOptional(o.takeProfit), AttachOptional(o.stopLoss), now,
                policy);
    FinishConserves(numbered, o, PlacedFill(numbered, o, market, now, policy), PlacedPrice(o, market, policy), market,
                    now, policy);
  }

  lemma PlaceConserves(s: State, t: Ticket, market: int, now: int, policy: Policy)
    ensures var r := Place(s, t, market, now, policy); r.Ok? ==> Conserves(s, r.value, policy)
  {
    ExecuteConserves(s, PlacedOrder(s, t, market), market, now, policy);
  }

  /** One call raises the ledger's total exactly by lifting a negative balance to zero, and only if
      it writes the account back. */
  lemma CallKeepsDeposit(stored: State, call: Call, feed: Marks, now: int, policy: Policy)
    requires stored.feesPaidUsd >= 0
    ensures var w := Perform(stored, call, feed, now, policy);
            w.Account? ==>
              && Deposit(w.state) == Deposit(stored) + Max(0, -stored.balanceUsd)
              && (FeesOk(policy) ==> w.state.feesPaidUsd >= stored.feesPaidUsd)
  {
    ReconcileConserves(Coerce(stored), feed, now, policy);
    CallConserves(Loaded(stored, feed, now, policy), stored, call, feed, now, policy);
  }

  /** What a call writes, from the reconciled account. */
  lemma CallConserves(pass: Progress, stored: State, call: Call, feed: Marks, now: int, policy: Policy)
    requires pass == Loaded(stored, feed, now, policy)
    ensures var w := Perform(stored, call, feed, now, policy); w.Account? ==> Conserves(pass.state, w.state, policy)
  {
    match call
    case PlaceCall(t, market) =>
      if market.Some? {
        PlaceConserves(pass.state, t, market.value, now, policy);
      }
    case _ =>
  }

  // ----- the account stays well formed --------------------------------------------------------

  lemma NewOrderOk(s: State, t: Ticket, market: int)
    requires t.qty > 0 && market > 0
    ensures var o := PlacedOrder(s, t, market);
            && OrderOk(o, 1) && o.status.Open? && o.fillCount == 0 && o.id == s.nextOrderSeq && o.symbol == t.symbol
            && o.filledQty == 0 && o.originalQty == t.qty && Positive(o.trigger)
            && o.reduceOnly == t.reduceOnly && o.side == t.side && o.kind == t.kind
  {
  }

  predicate SameIdentity(a: Order, b: Order) {
    a.id == b.id && a.symbol == b.symbol
  }

  lemma RestateKeeps(o: Order, price: int, floor: nat)
    requires OrderOk(o, floor) && (floor > 0 ==> price > 0)
    ensures o.status.Filled? ==> OrderOk(Restated(o, price), floor) && SameIdentity(Restated(o, price), o)
    ensures o.status.Filled? ==> Restated(o, price).status.Filled?
  {
  }

  lemma BookNumbered(s: State, symbol: Symbol, fill: FillResult, price: int)
    ensures Book(Numbered(s), symbol, fill, price) == Numbered(Book(s, symbol, fill, price))
  {
  }

  /** An immediate fill of a new order leaves a well-formed account. */
  lemma ExecutedKeeps(s: State, o: Order, fill: FillResult, price: int, policy: Policy, floor: nat)
    requires LoadedOk(s, floor) && (floor > 0 ==> price > 0)
    requires OrderOk(o, floor) && o.status.Open? && o.symbol != "" && o.id == s.nextOrderSeq
    requires FillFits(fill, o, policy, floor) && fill.filledQty > 0
    ensures LoadedOk(Executed(Numbered(s), o, fill, price), floor)
  {
    BookKeeps(s, o.symbol, fill, price, floor);
    RecordFillKeepsOrder(o, fill.filledQty, price, fill.feeUsd, policy, floor);
    var recorded := RecordFill(o, fill.filledQty, price, fill.feeUsd);
    RestateKeeps(recorded, price, floor);
    var listed := if recorded.status.Open? then recorded else Restated(recorded, price);
    var booked := Book(s, o.symbol, fill, price);
    PushKeeps(booked, listed, floor);
    BookNumbered(s, o.symbol, fill, price);
  }

  /** A new order that can execute at once fills at a price that fits. */
  lemma PlacedPriceFits(o: Order, market: int, policy: Policy, floor: nat)
    requires Immediate(o, market) && OrderOk(o, floor) && MarkFits(market, floor) && PolicyFits(policy, floor)
    ensures PriceFits(o.side, PlacedPrice(o, market, policy), floor)
  {
    TriggeredPriceFits(o.side, o.kind, o.price, market, o.trigger, PlacedReason(o), policy, floor);
  }

  lemma PlacedFillSound(s: State, o: Order, market: int, now: int, policy: Policy, floor: nat)
    requires LoadedOk(s, floor) && Immediate(o, market) && OrderOk(o, floor) && o.status.Open? && o.symbol != ""
    requires MarkFits(market, floor) && PolicyFits(policy, floor)
    ensures FillFits(PlacedFill(Numbered(s), o, market, now, policy), o, policy, floor)
  {
    TouchLeavesMoreThanOne(o, policy);
    PlacedPriceFits(o, market, policy, floor);
    var numbered := Numbered(s);
    assert LoadedOk(numbered, floor);
    OrderFillSound(numbered, o.symbol, TouchQty(o, policy), o.side, o.reduceOnly, PlacedPrice(o, market, policy),
                   o.kind.Limit? && o.trigger.None?, AttachOptional(o.takeProfit), AttachOptional(o.stopLoss), now,
                   policy, floor);
  }

  lemma FinishKeeps(s: State, o: Order, fill: FillResult, price: int, market: int, now: int, policy: Policy, floor: nat)
    requires LoadedOk(s, floor) && MarkFits(market, floor) && PolicyFits(policy, floor) && (floor > 0 ==> price > 0)
    requires OrderOk(o, floor) && o.status.Open? && o.symbol != "" && o.id == s.nextOrderSeq
    requires FillFits(fill, o, policy, floor)
    ensures var r := Finish(Numbered(s), o, fill, price, market, now, policy);
            r.Ok? ==> StoredOk(r.value, floor)
  {
    if fill.filledQty > 0 {
      ExecutedKeeps(s, o, fill, price, policy, floor);
      LiquidateKeeps(Executed(Numbered(s), o, fill, price), map[o.symbol := market], now, policy, floor);
    }
  }

  lemma ExecuteKeeps(s: State, o: Order, market: int, now: int, policy: Policy, floor: nat)
    requires LoadedOk(s, floor) && MarkFits(market, floor) && PolicyFits(policy, floor) && Immediate(o, market)
    requires OrderOk(o, floor) && o.status.Open? && o.symbol != "" && o.id == s.nextOrderSeq
    ensures var r := Execute(s, o, market, now, policy); r.Ok? ==> StoredOk(r.value, floor)
  {
    PlacedFillSound(s, o, market, now, policy, floor);
    PlacedPriceFits(o, market, policy, floor);
    var numbered := Numbered(s);
    var fill := PlacedFill(numbered, o, market, now, policy);
    var price := PlacedPrice(o, market, policy);
    FinishKeeps(s, o, fill, price, market, now, policy, floor);
  }

  /** Everything placing an order can leave in memory. */
  lemma PlaceKeepsStored(s: State, t: Ticket, market: int, now: int, policy: Policy, floor: nat)
    requires LoadedOk(s, floor) && t.symbol != "" && t.qty > 0 && market > 0
    requires MarkFits(market, floor) && PolicyFits(policy, floor)
    ensures var r := Place(s, t, market, now, policy); r.Ok? ==> StoredOk(r.value, floor)
  {
    NewOrderOk(s, t, market);
    var o := PlacedOrder(s, t, market);
    if Immediate(o, market) {
      ExecuteKeeps(s, o, market, now, policy, floor);
    } else {
      PushKeeps(s, o, floor);
    }
  }

  lemma EditKeeps(s: State, e: Edit, floor: nat)
    requires StoredOk(s, floor)
    ensures var r := EditOrder(s, e); r.Ok? ==> StoredOk(r.value, floor)
  {
    var i := FindOpen(s.orders, e.id, e.symbol);
    if i.Some? {
      var o := s.orders[i.value];
      assert o in s.orders;
      if EditRefused(o, e).None? {
        EditAppliedOk(o, e, floor);
        ReplaceOrderKeeps(s, i.value, EditApplied(o, e), floor);
      }
    }
  }

  lemma EditAppliedOk(o: Order, e: Edit, floor: nat)
    requires OrderOk(o, floor) && o.status.Open? && EditRefused(o, e).None?
    ensures OrderOk(EditApplied(o, e), floor) && EditApplied(o, e).id == o.id && EditApplied(o, e).symbol == o.symbol
  {
    var amended := o.(price := if e.price.Some? then e.price.value else o.price,
                       trigger := Changed(o.trigger, e.trigger),
                       takeProfit := Changed(o.takeProfit, e.takeProfit),
                       stopLoss := Changed(o.stopLoss, e.stopLoss));
    assert OrderOk(amended, floor);
    SettleFixes(amended);
    if e.qty.Some? {
      ResizeKeepsOrder(amended, e.qty.value, floor);
    }
  }

  lemma CancelKeeps(s: State, id: int, symbol: Option<Symbol>, floor: nat)
    requires StoredOk(s, floor)
    ensures StoredOk(CancelOrder(s, id, symbol), floor)
  {
    var i := FindOpen(s.orders, id, symbol);
    if i.Some? {
      var o := s.orders[i.value];
      assert o in s.orders;
      ReplaceOrderKeeps(s, i.value, o.(status := Cancelled), floor);
    }
  }

  lemma CancelledIfOk(o: Order, symbol: Option<Symbol>, floor: nat)
    requires OrderOk(o, floor) && o.symbol != ""
    ensures var c := CancelledIf(o, symbol);
            OrderOk(c, floor) && c.symbol != "" && c.id == o.id && !OpenIn(c, symbol)
  {
  }

  lemma {:induction false} CancelMatchingKeeps(os: seq<Order>, symbol: Option<Symbol>, floor: nat)
    requires forall o :: o in os ==> OrderOk(o, floor) && o.symbol != ""
    ensures forall o :: o in CancelMatching(os, symbol) ==> OrderOk(o, floor) && o.symbol != "" && !OpenIn(o, symbol)
  {
    if os != [] {
      assert os[0] in os;
      CancelledIfOk(os[0], symbol, floor);
      CancelMatchingKeeps(os[1..], symbol, floor);
    }
  }

  lemma {:induction false} CancelMatchingIds(os: seq<Order>, symbol: Option<Symbol>)
    ensures forall i :: 0 <= i < |os| ==> CancelMatching(os, symbol)[i].id == os[i].id
  {
    if os != [] {
      CancelMatchingIds(os[1..], symbol);
    }
  }

  lemma SameIds(os: seq<Order>, r: seq<Order>, next: int)
    requires IdsDescend(os, next) && |r| == |os| && forall i :: 0 <= i < |os| ==> r[i].id == os[i].id
    ensures IdsDescend(r, next)
  {
    forall o | o in r ensures o.id < next {
      var i :| 0 <= i < |r| && r[i] == o;
      assert os[i] in os;
    }
  }

  lemma CancelAllKeeps(s: State, symbol: Option<Symbol>, floor: nat)
    requires StoredOk(s, floor)
    ensures StoredOk(CancelAll(s, symbol), floor)
  {
    CancelMatchingKeeps(s.orders, symbol, floor);
    CancelMatchingIds(s.orders, symbol);
    SameIds(s.orders, CancelMatching(s.orders, symbol), s.nextOrderSeq);
  }

  lemma SetExitsKeeps(s: State, symbol: Symbol, direction: Option<Direction>, takeProfit: Change, stopLoss: Change,
                      floor: nat)
    requires StoredOk(s, floor)
    ensures var r := SetExits(s, symbol, direction, takeProfit, stopLoss); r.Ok? ==> StoredOk(r.value, floor)
  {
    var r := SetExits(s, symbol, direction, takeProfit, stopLoss);
    if r.Ok? {
      var i := FindHeld(s.positions, symbol, direction).value;
      assert s.positions[i] in s.positions;
      assert forall p :: p in r.value.positions ==> p == r.value.positions[i] || p in s.positions;
    }
  }

  /** What the market side of a call must look like: positive prices, none below the floor. */
  predicate PricesOk(call: Call, feed: Marks, floor: nat) {
    && MarksOk(feed) && MarksFit(feed, floor)
    && (call.PlaceCall? && call.market.Some? ==> call.market.value > 0 && MarkFits(call.market.value, floor))
  }

  lemma LoadedKeeps(stored: State, feed: Marks, now: int, policy: Policy, floor: nat)
    requires StoredOk(stored, floor) && MarksOk(feed) && MarksFit(feed, floor) && PolicyFits(policy, floor)
    ensures LoadedOk(Loaded(stored, feed, now, policy).state, floor)
  {
    LoadStored(stored, floor);
    ReconcileSettles(Coerce(stored), feed, now, policy, floor);
  }

  /** Any call on a well-formed account, whatever its arguments, leaves a well-formed account: its shape
      under any policy, its prices above zero from marks at a floor the policy can sell at. */
  lemma CallKeepsStored(stored: State, call: Call, feed: Marks, now: int, policy: Policy, floor: nat)
    requires StoredOk(stored, floor) && PricesOk(call, feed, floor) && PolicyFits(policy, floor)
    ensures var w := Perform(stored, call, feed, now, policy); w.Account? ==> StoredOk(w.state, floor)
  {
    LoadedKeeps(stored, feed, now, policy, floor);
    var s := Loaded(stored, feed, now, policy).state;
    match call
    case List =>
    case PlaceCall(t, market) =>
      if t.symbol != "" && t.qty > 0 && market.Some? {
        PlaceKeepsStored(s, t, market.value, now, policy, floor);
      }
    case EditCall(e) => EditKeeps(s, e, floor);
    case CancelCall(id, symbol) => CancelKeeps(s, id, symbol, floor);
    case CancelAllCall(symbol) => CancelAllKeeps(s, symbol, floor);
    case SetExitsCall(symbol, direction, takeProfit, stopLoss) =>
      SetExitsKeeps(s, symbol, direction, takeProfit, stopLoss, floor);
  }

  /** What a call promises about the account in storage: well formed as before at every floor that its
      marks and the policy allow, and the ledger's total kept, or raised by a forgiven debt. */
  ghost predicate Continues(before: State, call: Call, feed: Marks, policy: Policy, after: State) {
    && (forall floor: nat :: StoredOk(before, floor) && PricesOk(call, feed, floor) && PolicyFits(policy, floor)
                             ==> StoredOk(after, floor))
    && (before.feesPaidUsd >= 0 ==>
          Deposit(after) == Deposit(before) || Deposit(after) == Deposit(before) + Max(0, -before.balanceUsd))
  }

  lemma CallContinues(stored: State, call: Call, feed: Marks, now: int, policy: Policy)
    ensures Continues(stored, call, feed, policy, After(stored, Perform(stored, call, feed, now, policy)))
  {
    forall floor: nat | StoredOk(stored, floor) && PricesOk(call, feed, floor) && PolicyFits(policy, floor)
      ensures StoredOk(After(stored, Perform(stored, call, feed, now, policy)), floor)
    {
      CallKeepsStored(stored, call, feed, now, policy, floor);
    }
    if stored.feesPaidUsd >= 0 {
      CallKeepsDeposit(stored, call, feed, now, policy);
    }
  }

  // ----- runs ---------------------------------------------------------------------------------

  /** A call with the time and the marks it meets. */
  datatype Occasion = Occasion(call: Call, feed: Marks, now: int)

  function Run(stored: State, calls: seq<Occasion>, policy: Policy): State {
    if calls == [] then stored
    else
      var before := Run(stored, calls[..|calls| - 1], policy);
      var c := calls[|calls| - 1];
      After(before, Perform(before, c.call, c.feed, c.now, policy))
  }

  /** Everything that lifting negative balances to zero added over a run. */
  function Forgiven(stored: State, calls: seq<Occasion>, policy: Policy): nat {
    if calls == [] then 0
    else
      var before := Run(stored, calls[..|calls| - 1], policy);
      var c := calls[|calls| - 1];
      Forgiven(stored, calls[..|calls| - 1], policy) +
      if Perform(before, c.call, c.feed, c.now, policy).Account? then Max(0, -before.balanceUsd) else 0
  }

  ghost predicate RunOk(calls: seq<Occasion>, floor: nat) {
    forall c :: c in calls ==> PricesOk(c.call, c.feed, floor)
  }

  /** Every reachable account is well formed: one position a symbol, balanced orders, falling order
      numbers below the next one, at most 200 orders, and real prices if the floor is positive. */
  lemma {:induction false} RunKeepsStored(stored: State, calls: seq<Occasion>, policy: Policy, floor: nat)
    requires StoredOk(stored, floor) && RunOk(calls, floor) && PolicyFits(policy, floor)
    ensures StoredOk(Run(stored, calls, policy), floor)
  {
    if calls != [] {
      var init := calls[..|calls| - 1];
      var c := calls[|calls| - 1];
      RunKeepsStored(stored, init, policy, floor);
      CallKeepsStored(Run(stored, init, policy), c.call, c.feed, c.now, policy, floor);
    }
  }

  /** Over any run, money enters or leaves the balance only through the realized, funding and fee
      columns, except what reloading forgave. */
  lemma {:induction false} RunConservesDeposit(stored: State, calls: seq<Occasion>, policy: Policy)
    requires stored.feesPaidUsd >= 0 && FeesOk(policy)
    ensures Deposit(Run(stored, calls, policy)) == Deposit(stored) + Forgiven(stored, calls, policy)
    ensures Run(stored, calls, policy).feesPaidUsd >= stored.feesPaidUsd
  {
    if calls != [] {
      var init := calls[..|calls| - 1];
      var c := calls[|calls| - 1];
      RunConservesDeposit(stored, init, policy);
      CallKeepsDeposit(Run(stored, init, policy), c.call, c.feed, c.now, policy);
    }
  }
}
