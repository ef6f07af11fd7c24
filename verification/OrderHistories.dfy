/** Every order of a reachable account got where it is by fills and accepted edits of a fresh order. */
module OrderHistories {
  import opened Wrappers
  import opened FixedPoint
  import opened PaperTypes
  import opened Prices
  import opened Orders
  import opened Loading
  import opened Engine
  import opened Accounts
  import opened Ledger

  /** What fills and edits move. */
  datatype Books = Books(kind: Kind, reduceOnly: bool, status: Status, qty: int, originalQty: int, filledQty: int,
                         remainingQty: int, average: int, fillCount: int)

  /** A cancelled order keeps the books it had while it was open. */
  function BooksOf(o: Order): Books {
    Books(o.kind, o.reduceOnly, if o.status.Cancelled? then Open else o.status, o.qty, o.originalQty, o.filledQty,
          o.remainingQty, OrZero(o.averageFillPrice), o.fillCount)
  }

  predicate Fresh(o: Order) {
    OrderOk(o, 0) && o.status.Open? && o.fillCount == 0 && o.filledQty == 0
  }

  ghost predicate Traces(o: Order, start: Order, es: seq<Orders.Event>, policy: Policy) {
    Fresh(start) && Possible(start, es, policy, 0) && BooksOf(History(start, es)) == BooksOf(o)
  }

  ghost predicate Follows(o: Order, policy: Policy) {
    exists start, es :: Traces(o, start, es, policy)
  }

  ghost predicate AllFollow(os: seq<Order>, policy: Policy) {
    forall o :: o in os ==> Follows(o, policy)
  }

  // ----- one order ----------------------------------------------------------------------------

  lemma FreshFollows(o: Order, policy: Policy)
    requires Fresh(o)
    ensures Follows(o, policy)
  {
    assert Traces(o, o, [], policy);
  }

  lemma SameBooksFollow(o: Order, n: Order, policy: Policy)
    requires Follows(o, policy) && BooksOf(n) == BooksOf(o)
    ensures Follows(n, policy)
  {
    var start, es :| Traces(o, start, es, policy);
    assert Traces(n, start, es, policy);
  }

  lemma HistoryGrows(start: Order, es: seq<Orders.Event>, e: Orders.Event, policy: Policy)
    requires Possible(start, es, policy, 0) && Admits(History(start, es), e, policy, 0)
    ensures Possible(start, es + [e], policy, 0) && History(start, es + [e]) == Handle(History(start, es), e)
  {
    assert (es + [e])[..|es|] == es;
  }

  lemma BlendSame(a: Option<int>, b: Option<int>, filled: int, price: int, qty: int)
    requires OrZero(a) == OrZero(b) && filled + qty > 0
    ensures Blend(a, filled, price, qty) == Blend(b, filled, price, qty)
  {
  }

  lemma SameTouch(o: Order, h: Order, policy: Policy)
    requires BooksOf(o) == BooksOf(h) && o.status == h.status
    ensures TouchQty(o, policy) == TouchQty(h, policy)
  {
  }

  lemma FillBooks(o: Order, h: Order, qty: int, price: int, feeUsd: int)
    requires BooksOf(o) == BooksOf(h) && o.status.Open? && h.status.Open? && QuantitiesOk(o) && qty > 0
    ensures BooksOf(RecordFill(o, qty, price, feeUsd)) == BooksOf(RecordFill(h, qty, price, feeUsd))
  {
    BlendSame(o.averageFillPrice, h.averageFillPrice, o.filledQty, price, qty);
  }

  lemma ResizeBooks(o: Order, h: Order, qty: int)
    requires BooksOf(o) == BooksOf(h) && o.status.Open? && h.status.Open?
    ensures BooksOf(Resize(o, qty)) == BooksOf(Resize(h, qty))
  {
  }

  /** Fills and edits depend on the books alone. */
  lemma HandleBooks(o: Order, h: Order, e: Orders.Event, policy: Policy)
    requires BooksOf(o) == BooksOf(h) && o.status.Open? && h.status.Open? && Admits(o, e, policy, 0)
    requires QuantitiesOk(o)
    ensures Admits(h, e, policy, 0) && BooksOf(Handle(o, e)) == BooksOf(Handle(h, e))
  {
    SameTouch(o, h, policy);
    match e
    case Fill(qty, price, feeUsd) => FillBooks(o, h, qty, price, feeUsd);
    case Edit(qty) => ResizeBooks(o, h, qty);
  }

  lemma EventFollows(o: Order, e: Orders.Event, policy: Policy)
    requires Follows(o, policy) && o.status.Open? && OrderOk(o, 0) && Admits(o, e, policy, 0)
    ensures Follows(Handle(o, e), policy)
  {
    var start, es :| Traces(o, start, es, policy);
    var h := History(start, es);
    HistoryKeepsOrder(start, es, policy, 0);
    HandleBooks(o, h, e, policy);
    HistoryGrows(start, es, e, policy);
    assert Traces(Handle(o, e), start, es + [e], policy);
  }

  /** A close is written down as one fill of a fresh market order. */
  lemma CloseFollows(id: int, symbol: Symbol, side: Side, qty: int, price: int, trigger: Option<int>,
                     takeProfit: Option<int>, stopLoss: Option<int>, feeUsd: int, policy: Policy)
    requires qty > 0 && price > 0 && feeUsd >= 0
    ensures Follows(FilledOrder(id, symbol, side, qty, price, trigger, takeProfit, stopLoss, feeUsd), policy)
  {
    var start := NewOrder(id, symbol, side, Market, qty, price, true, trigger, takeProfit, stopLoss);
    var o := FilledOrder(id, symbol, side, qty, price, trigger, takeProfit, stopLoss, feeUsd);
    FreshFollows(start, policy);
    EventFollows(start, Fill(qty, price, feeUsd), policy);
    FirstBlend(price, qty);
    SameBooksFollow(Handle(start, Fill(qty, price, feeUsd)), o, policy);
  }

  lemma FirstBlend(price: int, qty: int)
    requires qty > 0
    ensures Round(Blend(None, 0, price, qty)) == price
  {
    var n := price * qty;
    var e := Round(n as real / qty as real);
    assert Blend(None, 0, price, qty) == n as real / qty as real;
    RoundedQuotient(n, qty);
    MultipleAtLeast(price - e, qty);
    assert (price - e) * qty == n - qty * e;
  }

  lemma EditFollows(o: Order, e: Edit, policy: Policy)
    requires Follows(o, policy) && o.status.Open? && OrderOk(o, 0) && EditRefused(o, e).None?
    ensures Follows(EditApplied(o, e), policy)
  {
    var amended := o.(price := if e.price.Some? then e.price.value else o.price,
                       trigger := Changed(o.trigger, e.trigger),
                       takeProfit := Changed(o.takeProfit, e.takeProfit),
                       stopLoss := Changed(o.stopLoss, e.stopLoss));
    SameBooksFollow(o, amended, policy);
    SettleFixes(amended);
    if e.qty.Some? {
      EventFollows(amended, Orders.Edit(e.qty.value), policy);
    }
  }

  lemma CoerceFollows(o: Order, policy: Policy)
    requires Follows(o, policy) && OrderOk(o, 1)
    ensures Follows(CoerceOrder(o), policy)
  {
    SameBooksFollow(o, CoerceOrder(o), policy);
  }

  // ----- the engine's steps -------------------------------------------------------------------

  lemma {:induction false} LoadedFollow(os: seq<Order>, policy: Policy)
    requires AllFollow(os, policy) && forall o :: o in os ==> OrderOk(o, 1)
    ensures AllFollow(CoerceOrders(os), policy)
  {
    if os != [] {
      assert os[0] in os && forall o :: o in os[1..] ==> o in os;
      LoadedFollow(os[1..], policy);
      CoerceFollows(os[0], policy);
    }
  }

  lemma NewestFollow(os: seq<Order>, policy: Policy)
    requires AllFollow(os, policy)
    ensures AllFollow(Newest(os), policy)
  {
    assert forall o :: o in Newest(os) ==> o in os;
  }

  lemma UpdatedFollow(os: seq<Order>, i: nat, o: Order, policy: Policy)
    requires i < |os| && AllFollow(os, policy) && Follows(o, policy)
    ensures AllFollow(os[i := o], policy)
  {
    assert forall x :: x in os[i := o] ==> x == o || x in os;
  }

  lemma PushedFollow(s: State, o: Order, policy: Policy)
    requires AllFollow(s.orders, policy) && Follows(o, policy) && OrderOk(o, 0) && !o.status.Cancelled?
    ensures AllFollow(Push(s, o).orders, policy)
  {
    SettleFixes(o);
    assert forall x :: x in [o] + s.orders ==> x == o || x in s.orders;
    NewestFollow([o] + s.orders, policy);
  }

  lemma {:induction false} AccrueKeepsOrders(w: Progress, i: nat, marks: Marks, now: int, policy: Policy)
    requires i <= |w.state.positions|
    ensures AccrueFrom(w, i, marks, now, policy).state.orders == w.state.orders
    decreases |w.state.positions| - i
  {
    if i < |w.state.positions| {
      AccrueKeepsOrders(AccrueAt(w, i, marks, now, policy), i + 1, marks, now, policy);
    }
  }

  lemma TouchAtFollow(w: Progress, i: nat, marks: Marks, now: int, policy: Policy, floor: nat)
    requires i < |w.state.orders| && LoadedOk(w.state, floor) && AllFollow(w.state.orders, policy)
    requires MarksFit(marks, floor) && PolicyFits(policy, floor)
    ensures AllFollow(TouchAt(w, i, marks, now, policy).state.orders, policy)
  {
    var s, o := w.state, w.state.orders[i];
    assert o in s.orders;
    if Touched(o, marks, policy) {
      TouchFillSound(s, o, marks, now, policy, floor);
      var fill := RestingFill(s, o, marks[o.symbol], now, policy);
      if fill.filledQty > 0 {
        var e := Fill(fill.filledQty, RestingPrice(o, marks[o.symbol], policy), fill.feeUsd);
        EventFollows(o, e, policy);
        UpdatedFollow(s.orders, i, Handle(o, e), policy);
      }
    }
  }

  lemma {:induction false} TouchFollow(w: Progress, i: nat, marks: Marks, now: int, policy: Policy, floor: nat)
    requires i <= |w.state.orders| && LoadedOk(w.state, floor) && AllFollow(w.state.orders, policy)
    requires MarksFit(marks, floor) && PolicyFits(policy, floor)
    ensures AllFollow(TouchFrom(w, i, marks, now, policy).state.orders, policy)
    decreases |w.state.orders| - i
  {
    if i < |w.state.orders| {
      TouchAtFollow(w, i, marks, now, policy, floor);
      TouchAtKeeps(w, i, marks, now, policy, floor);
      TouchFollow(TouchAt(w, i, marks, now, policy), i + 1, marks, now, policy, floor);
    }
  }

  lemma CloseBookedFollow(s: State, p: Position, price: int, maker: bool, trigger: Option<int>, now: int,
                          policy: Policy)
    requires AllFollow(s.orders, policy) && p.qty > 0 && price > 0 && FeesOk(policy)
    requires Find(s.positions, p.symbol) == Some(p)
    ensures AllFollow(CloseBooked(s, p, CloseFill(s, p, price, maker, now, policy), price, trigger).orders, policy)
  {
    CloseFillCloses(s, p, price, maker, now, policy);
    var fill := CloseFill(s, p, price, maker, now, policy);
    var booked := Book(s, p.symbol, fill, price);
    CloseFollows(booked.nextOrderSeq, p.symbol, Opposite(p.direction), p.qty, price, trigger, p.takeProfit, p.stopLoss,
                 fill.feeUsd, policy);
    FilledOrderOk(booked.nextOrderSeq, p.symbol, Opposite(p.direction), p.qty, price, trigger, p.takeProfit, p.stopLoss,
                  fill.feeUsd, 0);
    PushedFollow(Numbered(booked),
                 FilledOrder(booked.nextOrderSeq, p.symbol, Opposite(p.direction), p.qty, price, trigger,
                                               p.takeProfit, p.stopLoss, fill.feeUsd), policy);
  }

  lemma ExitAtFollow(w: Progress, p: Position, marks: Marks, now: int, policy: Policy, floor: nat)
    requires LoadedOk(w.state, floor) && floor > 0 && AllFollow(w.state.orders, policy)
    requires MarksFit(marks, floor) && PolicyFits(policy, floor) && Find(w.state.positions, p.symbol) == Some(p)
    ensures AllFollow(ExitAt(w, p, marks, now, policy).state.orders, policy)
  {
    if Exits(p, marks) {
      assert PositionOk(p, floor) && ExitsPositive(p);
      var trigger := ExitTrigger(p, marks[p.symbol]).value;
      ExitPriceFits(p, marks[p.symbol], policy, floor);
      CloseBookedFollow(w.state, p, ExitPrice(p, marks[p.symbol], trigger, policy), p.takeProfit == Some(trigger),
                        Some(trigger), now, policy);
    }
  }

  lemma {:induction false} ExitFollow(w: Progress, ps: seq<Position>, marks: Marks, now: int, policy: Policy,
                                      floor: nat)
    requires LoadedOk(w.state, floor) && floor > 0 && AllFollow(w.state.orders, policy) && Pending(w.state, ps)
    requires MarksOk(marks) && MarksFit(marks, floor) && PolicyFits(policy, floor)
    ensures AllFollow(ExitAll(w, ps, marks, now, policy).state.orders, policy)
    decreases |ps|
  {
    if ps != [] {
      assert ps[0] in ps;
      var next := ExitAt(w, ps[0], marks, now, policy);
      ExitAtFollow(w, ps[0], marks, now, policy, floor);
      ExitAtCloses(w, ps[0], marks, now, policy, floor);
      PendingTail(w.state, ps, next.state);
      ExitFollow(next, ps[1..], marks, now, policy, floor);
    }
  }

  lemma LiquidateAtFollow(s: State, p: Position, marks: Marks, now: int, policy: Policy, floor: nat)
    requires LoadedOk(s, floor) && floor > 0 && AllFollow(s.orders, policy)
    requires MarksFit(marks, floor) && PolicyFits(policy, floor) && Find(s.positions, p.symbol) == Some(p)
    ensures AllFollow(LiquidateAt(s, p, marks, now, policy).orders, policy)
  {
    assert PositionOk(p, floor);
    LiquidationPriceFits(p, marks, policy, floor);
    CloseBookedFollow(s, p, AggressivePrice(Opposite(p.direction), MarkOf(marks, p), policy.liquidationSlippageBps),
                      false, None, now, policy);
  }

  lemma {:induction false} LiquidateAllFollow(s: State, ps: seq<Position>, marks: Marks, now: int, policy: Policy,
                                              floor: nat)
    requires LoadedOk(s, floor) && floor > 0 && AllFollow(s.orders, policy) && Pending(s, ps)
    requires MarksFit(marks, floor) && PolicyFits(policy, floor)
    ensures AllFollow(LiquidateAll(s, ps, marks, now, policy).orders, policy)
    decreases |ps|
  {
    if ps != [] {
      assert ps[0] in ps;
      var next := LiquidateAt(s, ps[0], marks, now, policy);
      LiquidateAtFollow(s, ps[0], marks, now, policy, floor);
      var o := LiquidateAtCloses(s, ps[0], marks, now, policy, floor);
      PendingTail(s, ps, next);
      LiquidateAllFollow(next, ps[1..], marks, now, policy, floor);
    }
  }

  lemma LiquidateFollow(s: State, marks: Marks, now: int, policy: Policy, floor: nat)
    requires LoadedOk(s, floor) && floor > 0 && AllFollow(s.orders, policy) && MarksFit(marks, floor)
    requires PolicyFits(policy, floor)
    ensures AllFollow(Liquidate(s, marks, now, policy).state.orders, policy)
  {
    PendingAtStart(s);
    LiquidateAllFollow(s, s.positions, marks, now, policy, floor);
  }

  lemma ReconcileFollow(s: State, feed: Marks, now: int, policy: Policy, floor: nat)
    requires LoadedOk(s, floor) && floor > 0 && AllFollow(s.orders, policy)
    requires MarksOk(feed) && MarksFit(feed, floor) && PolicyFits(policy, floor)
    ensures AllFollow(Reconcile(s, feed, now, policy).state.orders, policy)
  {
    var marks := MarksFor(s, feed);
    var funded := Accrue(s, marks, now, policy);
    AccrueFromKeeps(Progress(s, false), 0, marks, now, policy, floor);
    AccrueKeepsOrders(Progress(s, false), 0, marks, now, policy);
    var touched := TouchFrom(funded, 0, marks, now, policy);
    TouchFollow(funded, 0, marks, now, policy, floor);
    TouchFromKeeps(funded, 0, marks, now, policy, floor);
    PendingAtStart(touched.state);
    var exited := ExitAll(touched, touched.state.positions, marks, now, policy);
    ExitFollow(touched, touched.state.positions, marks, now, policy, floor);
    ExitAllCloses(touched, touched.state.positions, marks, now, policy, floor);
    LiquidateFollow(exited.state, marks, now, policy, floor);
    NewestFollow(Liquidate(exited.state, marks, now, policy).state.orders, policy);
  }

  /** The row placePaperOrder lists for an order that executed. */
  function Listing(o: Order, fill: FillResult, price: int): Order {
    var recorded := RecordFill(o, fill.filledQty, price, fill.feeUsd);
    if recorded.status.Open? then recorded else Restated(recorded, price)
  }

  lemma ListingFollows(o: Order, fill: FillResult, price: int, policy: Policy, floor: nat)
    requires Fresh(o) && OrderOk(o, floor) && FillFits(fill, o, policy, floor) && fill.filledQty > 0 && floor > 0
    requires price > 0
    ensures Follows(Listing(o, fill, price), policy)
    ensures OrderOk(Listing(o, fill, price), floor) && !Listing(o, fill, price).status.Cancelled?
  {
    var e := Fill(fill.filledQty, price, fill.feeUsd);
    FreshFollows(o, policy);
    EventFollows(o, e, policy);
    RecordFillKeepsOrder(o, fill.filledQty, price, fill.feeUsd, policy, floor);
    var recorded := RecordFill(o, fill.filledQty, price, fill.feeUsd);
    RestateKeeps(recorded, price, floor);
    if recorded.status.Filled? {
      RestatedBooks(recorded, price);
      SameBooksFollow(recorded, Restated(recorded, price), policy);
    }
  }

  lemma ExecutedFollow(s: State, o: Order, fill: FillResult, price: int, policy: Policy, floor: nat)
    requires AllFollow(s.orders, policy) && Fresh(o) && OrderOk(o, floor) && FillFits(fill, o, policy, floor)
    requires fill.filledQty > 0 && floor > 0 && price > 0
    ensures AllFollow(Executed(s, o, fill, price).orders, policy)
  {
    ListingFollows(o, fill, price, policy, floor);
    PushedFollow(Book(s, o.symbol, fill, price), Listing(o, fill, price), policy);
  }

  lemma RestatedBooks(o: Order, price: int)
    requires OrderOk(o, 1) && o.status.Filled? && price > 0
    ensures BooksOf(Restated(o, price)) == BooksOf(o)
  {
  }

  // ----- calls and runs -----------------------------------------------------------------------

  lemma ExecuteFollow(s: State, o: Order, market: int, now: int, policy: Policy, floor: nat)
    requires LoadedOk(s, floor) && floor > 0 && AllFollow(s.orders, policy) && MarkFits(market, floor)
    requires PolicyFits(policy, floor)
    requires Immediate(o, market) && Fresh(o) && OrderOk(o, floor) && o.symbol != "" && o.id == s.nextOrderSeq
    ensures var r := Execute(s, o, market, now, policy); r.Ok? ==> AllFollow(r.value.orders, policy)
  {
    var fill, price := PlacedFill(Numbered(s), o, market, now, policy), PlacedPrice(o, market, policy);
    if fill.filledQty > 0 {
      PlacedFillSound(s, o, market, now, policy, floor);
      PlacedPriceFits(o, market, policy, floor);
      ExecutedFollow(Numbered(s), o, fill, price, policy, floor);
      ExecutedKeeps(s, o, fill, price, policy, floor);
      LiquidateFollow(Executed(Numbered(s), o, fill, price), map[o.symbol := market], now, policy, floor);
    }
  }

  lemma PlaceFollow(s: State, t: Ticket, market: int, now: int, policy: Policy, floor: nat)
    requires LoadedOk(s, floor) && floor > 0 && AllFollow(s.orders, policy) && MarkFits(market, floor)
    requires PolicyFits(policy, floor)
    requires t.symbol != "" && t.qty > 0 && market > 0
    ensures var r := Place(s, t, market, now, policy); r.Ok? ==> AllFollow(r.value.orders, policy)
  {
    NewOrderOk(s, t, market);
    var o := PlacedOrder(s, t, market);
    FreshFollows(o, policy);
    if Immediate(o, market) {
      ExecuteFollow(s, o, market, now, policy, floor);
    } else {
      PushedFollow(Numbered(s), o, policy);
    }
  }

  lemma EditOrderFollow(s: State, e: Edit, policy: Policy)
    requires AllFollow(s.orders, policy) && forall o :: o in s.orders ==> OrderOk(o, 0)
    ensures var r := EditOrder(s, e); r.Ok? ==> AllFollow(r.value.orders, policy)
  {
    var i := FindOpen(s.orders, e.id, e.symbol);
    if i.Some? && EditRefused(s.orders[i.value], e).None? {
      assert s.orders[i.value] in s.orders;
      EditFollows(s.orders[i.value], e, policy);
      UpdatedFollow(s.orders, i.value, EditApplied(s.orders[i.value], e), policy);
    }
  }

  lemma CancelFollow(s: State, id: int, symbol: Option<Symbol>, policy: Policy)
    requires AllFollow(s.orders, policy)
    ensures AllFollow(CancelOrder(s, id, symbol).orders, policy)
  {
    var i := FindOpen(s.orders, id, symbol);
    if i.Some? {
      var o := s.orders[i.value];
      assert o in s.orders;
      SameBooksFollow(o, o.(status := Cancelled), policy);
      UpdatedFollow(s.orders, i.value, o.(status := Cancelled), policy);
    }
  }

  lemma {:induction false} CancelMatchingFollow(os: seq<Order>, symbol: Option<Symbol>, policy: Policy)
    requires AllFollow(os, policy)
    ensures AllFollow(CancelMatching(os, symbol), policy)
  {
    if os != [] {
      assert os[0] in os && forall o :: o in os[1..] ==> o in os;
      CancelMatchingFollow(os[1..], symbol, policy);
      SameBooksFollow(os[0], CancelledIf(os[0], symbol), policy);
    }
  }

  lemma LoadedAccountFollows(stored: State, feed: Marks, now: int, policy: Policy, floor: nat)
    requires StoredOk(stored, floor) && floor > 0 && AllFollow(stored.orders, policy)
    requires MarksOk(feed) && MarksFit(feed, floor) && PolicyFits(policy, floor)
    ensures AllFollow(Loaded(stored, feed, now, policy).state.orders, policy)
  {
    assert forall o :: o in stored.orders ==> OrderOk(o, 1);
    LoadStored(stored, floor);
    LoadedFollow(stored.orders, policy);
    NewestFollow(CoerceOrders(stored.orders), policy);
    ReconcileFollow(Coerce(stored), feed, now, policy, floor);
  }

  lemma CallFollow(stored: State, call: Call, feed: Marks, now: int, policy: Policy, floor: nat)
    requires StoredOk(stored, floor) && floor > 0 && AllFollow(stored.orders, policy)
    requires PricesOk(call, feed, floor) && PolicyFits(policy, floor)
    ensures AllFollow(After(stored, Perform(stored, call, feed, now, policy)).orders, policy)
  {
    LoadedAccountFollows(stored, feed, now, policy, floor);
    LoadedKeeps(stored, feed, now, policy, floor);
    WrittenFollow(Loaded(stored, feed, now, policy), stored, call, feed, now, policy, floor);
  }

  lemma WrittenFollow(pass: Progress, stored: State, call: Call, feed: Marks, now: int, policy: Policy, floor: nat)
    requires pass == Loaded(stored, feed, now, policy) && LoadedOk(pass.state, floor) && floor > 0
    requires AllFollow(pass.state.orders, policy) && PricesOk(call, feed, floor) && PolicyFits(policy, floor)
    ensures var w := Perform(stored, call, feed, now, policy); w.Account? ==> AllFollow(w.state.orders, policy)
  {
    var s := pass.state;
    match call
    case List =>
    case PlaceCall(t, market) =>
      if t.symbol != "" && t.qty > 0 && market.Some? {
        PlaceFollow(s, t, market.value, now, policy, floor);
        SavedFollow(Place(s, t, market.value, now, policy), policy);
      }
    case EditCall(e) =>
      EditOrderFollow(s, e, policy);
      SavedFollow(EditOrder(s, e), policy);
    case CancelCall(id, symbol) =>
      CancelFollow(s, id, symbol, policy);
      NewestFollow(CancelOrder(s, id, symbol).orders, policy);
    case CancelAllCall(symbol) =>
      CancelMatchingFollow(s.orders, symbol, policy);
      NewestFollow(CancelMatching(s.orders, symbol), policy);
    case SetExitsCall(symbol, direction, takeProfit, stopLoss) =>
      SavedFollow(SetExits(s, symbol, direction, takeProfit, stopLoss), policy);
  }

  lemma SavedFollow(r: Result<State, Error>, policy: Policy)
    requires r.Ok? ==> AllFollow(r.value.orders, policy)
    ensures r.Ok? ==> AllFollow(Saved(r.value).orders, policy)
  {
    if r.Ok? {
      NewestFollow(r.value.orders, policy);
    }
  }

  /** Every order of every reachable account has followed a possible history. */
  lemma {:induction false} RunFollow(stored: State, calls: seq<Occasion>, policy: Policy, floor: nat)
    requires StoredOk(stored, floor) && floor > 0 && AllFollow(stored.orders, policy)
    requires RunOk(calls, floor) && PolicyFits(policy, floor)
    ensures AllFollow(Run(stored, calls, policy).orders, policy)
  {
    if calls != [] {
      var init, c := calls[..|calls| - 1], calls[|calls| - 1];
      RunFollow(stored, init, policy, floor);
      RunKeepsStored(stored, init, policy, floor);
      CallFollow(Run(stored, init, policy), c.call, c.feed, c.now, policy, floor);
    }
  }

  /** So the average price of every reachable order, times what it filled, is the sum of the notionals of
      its fills up to rounding, and it counts them; a plain limit order had at most two. */
  lemma ReachableAverage(stored: State, calls: seq<Occasion>, policy: Policy, floor: nat, o: Order)
    requires StoredOk(stored, floor) && floor > 0 && AllFollow(stored.orders, policy)
    requires RunOk(calls, floor) && PolicyFits(policy, floor) && o in Run(stored, calls, policy).orders
    ensures exists start, es :: Traces(o, start, es, policy) && HistoryExplains(o, es)
  {
    RunFollow(stored, calls, policy, floor);
    var start, es :| Traces(o, start, es, policy);
    AverageIsVwap(start, es, policy);
    HistoryKeepsOrder(start, es, policy, 0);
    assert HistoryExplains(o, es);
  }

  predicate HistoryExplains(o: Order, es: seq<Orders.Event>) {
    && WithinSlack(Paid(o) - NotionalIn(es), FillsIn(es), o.filledQty)
    && o.fillCount == FillsIn(es)
    && (o.kind.Limit? && !o.reduceOnly ==> FillsIn(es) <= 2)
  }
}
