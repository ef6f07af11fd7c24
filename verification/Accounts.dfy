/** What every pass and every call keeps: the shape of the account. */
module Accounts {
  import opened Wrappers
  import opened FixedPoint
  import opened PaperTypes
  import opened Prices
  import opened Orders
  import opened Loading
  import opened Engine
  import Fills

  ghost predicate NextOk(symbol: Symbol, next: Option<Position>, floor: nat) {
    next.Some? ==> next.value.symbol == symbol && PositionOk(next.value, floor) && ExitsPositive(next.value)
  }

  /** The fee of a fill, as far as a positive floor asks. */
  predicate FeeFits(feeUsd: int, floor: nat) {
    floor > 0 ==> feeUsd >= 0
  }

  /** Everything a caller may rely on about a fill the engine computes. */
  lemma OrderFillSound(s: State, symbol: Symbol, qty: int, side: Side, reduceOnly: bool, price: int, maker: bool,
                       takeProfit: Attached, stopLoss: Attached, now: int, policy: Policy, floor: nat)
    requires LoadedOk(s, floor) && symbol != "" && qty > 0 && PriceFits(side, price, floor)
    requires floor > 0 ==> FeesOk(policy)
    ensures var r := OrderFill(s, symbol, qty, side, reduceOnly, price, maker, takeProfit, stopLoss, now, policy);
            var current := Find(s.positions, symbol);
            && 0 <= r.filledQty <= qty && FeeFits(r.feeUsd, floor)
            && (!reduceOnly ==> r.filledQty == 0 || r.filledQty == qty)
            && (r.filledQty > 0 ==>
                  && NextOk(symbol, r.next, floor)
                  && r.filledQty == Abs(Fills.EffectiveDelta(Fills.Signed(current), side, qty, reduceOnly))
                  && Fills.Signed(r.next)
                     == Fills.Signed(current) + Fills.EffectiveDelta(Fills.Signed(current), side, qty, reduceOnly))
  {
    var current := Find(s.positions, symbol);
    assert Fills.Held(current);
    Fills.FillKeepsHeld(current, symbol, qty, side, reduceOnly, price, now);
    var fill := Fills.ApplyFill(current, symbol, qty, side, reduceOnly, price, now);
    if floor > 0 {
      FeeNonNegative(Value(fill.filledQty, price), maker, policy);
    }
    if fill.filledQty > 0 && fill.next.Some? {
      ExitsSurvive(current, symbol, qty, side, reduceOnly, price, now);
      EntryFits(current, symbol, qty, side, reduceOnly, price, now, floor);
    }
  }

  lemma EntryFits(current: Option<Position>, symbol: Symbol, qty: int, side: Side, reduceOnly: bool, price: int,
                  now: int, floor: nat)
    requires (current.Some? ==> PositionOk(current.value, floor)) && symbol != "" && qty > 0
    requires PriceFits(side, price, floor)
    requires current.Some? ==> current.value.symbol == symbol
    ensures var next := Fills.ApplyFill(current, symbol, qty, side, reduceOnly, price, now).next;
            next.Some? ==> next.value.symbol == symbol && PositionOk(next.value, floor)
  {
    Fills.FillKeepsHeld(current, symbol, qty, side, reduceOnly, price, now);
    Fills.FillKeepsEntry(current, symbol, qty, side, reduceOnly, price, now);
  }

  lemma ExitsSurvive(current: Option<Position>, symbol: Symbol, qty: int, side: Side, reduceOnly: bool, price: int,
                     now: int)
    requires current.Some? ==> ExitsPositive(current.value)
    ensures var next := Fills.ApplyFill(current, symbol, qty, side, reduceOnly, price, now).next;
            next.Some? ==> ExitsPositive(next.value)
  {
  }

  /** Closing a position that is held closes all of it, at any price. */
  lemma CloseFillCloses(s: State, p: Position, price: int, maker: bool, now: int, policy: Policy)
    requires p.qty > 0 && Find(s.positions, p.symbol) == Some(p)
    ensures var r := CloseFill(s, p, price, maker, now, policy);
            r.filledQty == p.qty && r.next.None? && (FeesOk(policy) ==> r.feeUsd >= 0)
  {
    if FeesOk(policy) {
      FeeNonNegative(Value(p.qty, price), maker, policy);
    }
  }

  lemma SettleFixes(o: Order)
    requires OrderOk(o, 0) && !o.status.Cancelled?
    ensures Settle(o) == o
  {
  }

  lemma BookKeeps(s: State, symbol: Symbol, fill: FillResult, price: int, floor: nat)
    requires LoadedOk(s, floor) && NextOk(symbol, fill.next, floor) && FeeFits(fill.feeUsd, floor)
    ensures var b := Book(s, symbol, fill, price);
            && LoadedOk(b, floor)
            && b.orders == s.orders && b.nextOrderSeq == s.nextOrderSeq && b.liquidationCount == s.liquidationCount
            && (forall t :: Find(b.positions, t) == if t == symbol then fill.next else Find(s.positions, t))
  {
    ReplaceIsUpdate(s.positions, symbol, fill.next);
    var ps := Replace(s.positions, symbol, fill.next);
    forall p | p in ps ensures PositionOk(p, floor) && ExitsPositive(p) {
      assert p in Without(s.positions, symbol) || p in AsList(fill.next);
    }
  }

  lemma IdsPush(o: Order, os: seq<Order>, next: int)
    requires IdsDescend(os, next) && o.id == next
    ensures IdsDescend(Newest([o] + os), next + 1)
  {
    var all := [o] + os;
    forall i, j | 0 <= i < j < |all| ensures all[i].id > all[j].id {
      assert all[j] in os;
    }
    assert forall x :: x in Newest(all) ==> x in all;
  }

  lemma PushKeeps(s: State, o: Order, floor: nat)
    requires StoredOk(s, floor) && OrderOk(o, floor) && !o.status.Cancelled? && o.symbol != "" && o.id == s.nextOrderSeq
    ensures StoredOk(Push(Numbered(s), o), floor)
    ensures Push(Numbered(s), o).orders == Newest([o] + s.orders)
  {
    SettleFixes(o);
    IdsPush(o, s.orders, s.nextOrderSeq);
    assert forall x :: x in Newest([o] + s.orders) ==> x == o || x in s.orders;
  }

  lemma FilledOrderOk(id: int, symbol: Symbol, side: Side, qty: int, price: int, trigger: Option<int>,
                      takeProfit: Option<int>, stopLoss: Option<int>, feeUsd: int, floor: nat)
    requires qty > 0 && AmountsFit(price, feeUsd, floor)
    ensures var o := FilledOrder(id, symbol, side, qty, price, trigger, takeProfit, stopLoss, feeUsd);
            && OrderOk(o, floor) && o.id == id && o.symbol == symbol && o.trigger == trigger
            && o.takeProfit == takeProfit && o.stopLoss == stopLoss
            && o.status.Filled? && o.reduceOnly && o.filledQty == qty && o.side == side
  {
  }

  /** Booking a close: the position is gone, nothing else moved, one finished order is on top. */
  lemma CloseBookedKeeps(s: State, p: Position, price: int, maker: bool, trigger: Option<int>, now: int, policy: Policy,
                         floor: nat)
    requires LoadedOk(s, floor) && Find(s.positions, p.symbol) == Some(p)
    requires floor > 0 ==> price > 0 && FeesOk(policy)
    ensures var fill := CloseFill(s, p, price, maker, now, policy);
            var r := CloseBooked(s, p, fill, price, trigger);
            && LoadedOk(r, floor)
            && (forall t :: Find(r.positions, t) == if t == p.symbol then None else Find(s.positions, t))
            && r.positions == Without(s.positions, p.symbol)
            && r.nextOrderSeq == s.nextOrderSeq + 1 && r.liquidationCount == s.liquidationCount
            && r.orders == Newest([ClosingOrder(s, p, price, maker, trigger, now, policy)] + s.orders)
  {
    assert PositionOk(p, floor) && ExitsPositive(p);
    CloseFillCloses(s, p, price, maker, now, policy);
    var fill := CloseFill(s, p, price, maker, now, policy);
    BookKeeps(s, p.symbol, fill, price, floor);
    var b := Book(s, p.symbol, fill, price);
    var o := ClosingOrder(s, p, price, maker, trigger, now, policy);
    FilledOrderOk(s.nextOrderSeq, p.symbol, Opposite(p.direction), p.qty, price, trigger, p.takeProfit, p.stopLoss,
                  fill.feeUsd, floor);
    PushKeeps(b, o, floor);
  }

  /** The order a close writes down. */
  function ClosingOrder(s: State, p: Position, price: int, maker: bool, trigger: Option<int>, now: int,
                        policy: Policy): Order {
    FilledOrder(s.nextOrderSeq, p.symbol, Opposite(p.direction), p.qty, price, trigger, p.takeProfit, p.stopLoss,
                CloseFill(s, p, price, maker, now, policy).feeUsd)
  }

  // ----- funding ------------------------------------------------------------------------------

  lemma AccrueAtKeeps(w: Progress, i: nat, marks: Marks, now: int, policy: Policy, floor: nat)
    requires i < |w.state.positions| && LoadedOk(w.state, floor)
    ensures LoadedOk(AccrueAt(w, i, marks, now, policy).state, floor)
  {
    var before := w.state.positions;
    var after := AccrueAt(w, i, marks, now, policy).state.positions;
    forall p | p in after ensures PositionOk(p, floor) && ExitsPositive(p) {
      var k :| 0 <= k < |after| && after[k] == p;
      assert before[k] in before;
    }
  }

  lemma {:induction false} AccrueFromKeeps(w: Progress, i: nat, marks: Marks, now: int, policy: Policy, floor: nat)
    requires i <= |w.state.positions| && LoadedOk(w.state, floor)
    ensures LoadedOk(AccrueFrom(w, i, marks, now, policy).state, floor)
    decreases |w.state.positions| - i
  {
    if i < |w.state.positions| {
      AccrueAtKeeps(w, i, marks, now, policy, floor);
      AccrueFromKeeps(AccrueAt(w, i, marks, now, policy), i + 1, marks, now, policy, floor);
    }
  }

  // ----- resting orders -----------------------------------------------------------------------

  /** A touched order fills at a price that fits: a limit that the mark has met, or a slipped mark. */
  lemma RestingPriceFits(o: Order, marks: Marks, policy: Policy, floor: nat)
    requires Touched(o, marks, policy) && OrderOk(o, floor) && MarksFit(marks, floor) && PolicyFits(policy, floor)
    ensures PriceFits(o.side, RestingPrice(o, marks[o.symbol], policy), floor)
  {
    TriggeredPriceFits(o.side, o.kind, o.price, marks[o.symbol], o.trigger, RestingReason(o), policy, floor);
  }

  lemma TouchFillSound(s: State, o: Order, marks: Marks, now: int, policy: Policy, floor: nat)
    requires LoadedOk(s, floor) && OrderOk(o, floor) && o.symbol != ""
    requires Touched(o, marks, policy) && MarksFit(marks, floor) && PolicyFits(policy, floor)
    ensures FillFits(RestingFill(s, o, marks[o.symbol], now, policy), o, policy, floor)
  {
    TouchLeavesMoreThanOne(o, policy);
    RestingPriceFits(o, marks, policy, floor);
    OrderFillSound(s, o.symbol, TouchQty(o, policy), o.side, o.reduceOnly, RestingPrice(o, marks[o.symbol], policy),
                   o.kind.Limit? && o.trigger.None?, Set(o.takeProfit), Set(o.stopLoss), now, policy, floor);
  }

  /** A computed fill is either refused or one the order can record. */
  ghost predicate FillFits(fill: FillResult, o: Order, policy: Policy, floor: nat) {
    && 0 <= fill.filledQty <= TouchQty(o, policy) && FeeFits(fill.feeUsd, floor)
    && (fill.filledQty > 0 ==>
          NextOk(o.symbol, fill.next, floor) && (!o.reduceOnly ==> fill.filledQty == TouchQty(o, policy)))
  }

  lemma TouchAtKeeps(w: Progress, i: nat, marks: Marks, now: int, policy: Policy, floor: nat)
    requires i < |w.state.orders| && LoadedOk(w.state, floor) && MarksFit(marks, floor) && PolicyFits(policy, floor)
    ensures LoadedOk(TouchAt(w, i, marks, now, policy).state, floor)
  {
    var s := w.state;
    var o := s.orders[i];
    assert o in s.orders;
    if Touched(o, marks, policy) {
      var price := RestingPrice(o, marks[o.symbol], policy);
      RestingPriceFits(o, marks, policy, floor);
      TouchFillSound(s, o, marks, now, policy, floor);
      var fill := RestingFill(s, o, marks[o.symbol], now, policy);
      if fill.filledQty > 0 {
        BookKeeps(s, o.symbol, fill, price, floor);
        RecordFillKeepsOrder(o, fill.filledQty, price, fill.feeUsd, policy, floor);
        ReplaceOrderKeeps(Book(s, o.symbol, fill, price), i, RecordFill(o, fill.filledQty, price, fill.feeUsd), floor);
      }
    }
  }

  lemma ReplaceOrderKeeps(s: State, i: nat, o: Order, floor: nat)
    requires i < |s.orders| && StoredOk(s, floor) && OrderOk(o, floor)
    requires o.id == s.orders[i].id && o.symbol == s.orders[i].symbol
    ensures StoredOk(s.(orders := s.orders[i := o]), floor)
  {
    var os := s.orders[i := o];
    assert s.orders[i] in s.orders;
    assert forall x :: x in os ==> x == o || x in s.orders;
  }

  lemma {:induction false} TouchFromKeeps(w: Progress, i: nat, marks: Marks, now: int, policy: Policy, floor: nat)
    requires i <= |w.state.orders| && LoadedOk(w.state, floor) && MarksFit(marks, floor) && PolicyFits(policy, floor)
    ensures LoadedOk(TouchFrom(w, i, marks, now, policy).state, floor)
    decreases |w.state.orders| - i
  {
    if i < |w.state.orders| {
      TouchAtKeeps(w, i, marks, now, policy, floor);
      TouchFromKeeps(TouchAt(w, i, marks, now, policy), i + 1, marks, now, policy, floor);
    }
  }

  // ----- closing loops ------------------------------------------------------------------------

  /** The rows of a snapshot that a closing loop has still to visit are still held, unchanged. */
  ghost predicate Pending(s: State, ps: seq<Position>) {
    UniqueSymbols(ps) && forall p :: p in ps ==> Find(s.positions, p.symbol) == Some(p)
  }

  lemma PendingAtStart(s: State)
    requires UniqueSymbols(s.positions)
    ensures Pending(s, s.positions)
  {
    forall p | p in s.positions ensures Find(s.positions, p.symbol) == Some(p) {
      var i :| 0 <= i < |s.positions| && s.positions[i] == p;
      FindUnique(s.positions, i);
    }
  }

  /** Visiting the first row leaves the others pending. */
  lemma PendingTail(s: State, ps: seq<Position>, r: State)
    requires ps != [] && Pending(s, ps)
    requires forall t :: t != ps[0].symbol ==> Find(r.positions, t) == Find(s.positions, t)
    ensures Pending(r, ps[1..])
  {
    forall p | p in ps[1..] ensures p.symbol != ps[0].symbol {
      var i :| 1 <= i < |ps| && ps[i] == p;
    }
  }

  predicate Exits(p: Position, marks: Marks) {
    p.symbol in marks && ExitTrigger(p, marks[p.symbol]).Some?
  }

  /** An exit fills at a price above zero when the exit price is and the mark is at the floor. */
  lemma ExitPriceFits(p: Position, mark: int, policy: Policy, floor: nat)
    requires ExitTrigger(p, mark).Some? && ExitsPositive(p) && MarkFits(mark, floor) && PolicyFits(policy, floor)
    ensures PriceFits(Opposite(p.direction), ExitPrice(p, mark, ExitTrigger(p, mark).value, policy), floor)
  {
    var trigger := ExitTrigger(p, mark).value;
    if p.stopLoss == Some(trigger) {
      TriggeredPriceFits(Opposite(p.direction), Market, trigger, mark, Some(trigger), StopLoss, policy, floor);
    } else {
      TriggeredPriceFits(Opposite(p.direction), Market, trigger, mark, Some(trigger), TakeProfit, policy, floor);
    }
  }

  lemma ExitAtCloses(w: Progress, p: Position, marks: Marks, now: int, policy: Policy, floor: nat)
    requires LoadedOk(w.state, floor) && Find(w.state.positions, p.symbol) == Some(p)
    requires MarksOk(marks) && MarksFit(marks, floor) && PolicyFits(policy, floor)
    ensures var r := ExitAt(w, p, marks, now, policy).state;
            && LoadedOk(r, floor)
            && (forall t :: Find(r.positions, t)
                            == if t == p.symbol && Exits(p, marks) then None else Find(w.state.positions, t))
  {
    if Exits(p, marks) {
      assert PositionOk(p, floor) && ExitsPositive(p);
      var market := marks[p.symbol];
      var trigger := ExitTrigger(p, market).value;
      var price := ExitPrice(p, market, trigger, policy);
      ExitPriceFits(p, market, policy, floor);
      CloseFillCloses(w.state, p, price, p.takeProfit == Some(trigger), now, policy);
      CloseBookedKeeps(w.state, p, price, p.takeProfit == Some(trigger), Some(trigger), now, policy, floor);
    }
  }

  /** The take-profit and stop-loss loop closes exactly the rows whose mark has passed an exit. */
  lemma {:induction false} ExitAllCloses(w: Progress, ps: seq<Position>, marks: Marks, now: int, policy: Policy,
                                         floor: nat)
    requires LoadedOk(w.state, floor) && Pending(w.state, ps)
    requires MarksOk(marks) && MarksFit(marks, floor) && PolicyFits(policy, floor)
    ensures var r := ExitAll(w, ps, marks, now, policy).state;
            && LoadedOk(r, floor)
            && (forall t :: Find(r.positions, t) == None || Find(r.positions, t) == Find(w.state.positions, t))
            && (forall p :: p in ps && Exits(p, marks) ==> Find(r.positions, p.symbol) == None)
    decreases |ps|
  {
    if ps != [] {
      var next := ExitAt(w, ps[0], marks, now, policy);
      assert ps[0] in ps;
      ExitAtCloses(w, ps[0], marks, now, policy, floor);
      PendingTail(w.state, ps, next.state);
      ExitAllCloses(next, ps[1..], marks, now, policy, floor);
      assert forall p :: p in ps ==> p == ps[0] || p in ps[1..];
    }
  }

  /** `made` are the orders of closing every row of `ps` in turn, newest first, numbered from `first`. */
  ghost predicate ClosesEach(made: seq<Order>, ps: seq<Position>, first: int) {
    && |made| == |ps|
    && forall k :: 0 <= k < |ps| ==> Closes(made[|ps| - 1 - k], ps[k], first + k)
  }

  predicate Closes(o: Order, p: Position, id: int) {
    && o.id == id && o.symbol == p.symbol && o.side == Opposite(p.direction)
    && o.status.Filled? && o.reduceOnly && o.filledQty == p.qty && o.remainingQty == 0
  }

  lemma ClosesEachExtends(later: seq<Order>, o: Order, ps: seq<Position>, first: int)
    requires ps != [] && ClosesEach(later, ps[1..], first + 1) && Closes(o, ps[0], first)
    ensures ClosesEach(later + [o], ps, first)
  {
    forall k | 0 <= k < |ps| ensures Closes((later + [o])[|ps| - 1 - k], ps[k], first + k) {
      if k > 0 {
        assert Closes(later[|ps[1..]| - 1 - (k - 1)], ps[1..][k - 1], first + 1 + (k - 1));
      }
    }
  }

  lemma NewestOfNewest(a: seq<Order>, b: seq<Order>)
    ensures Newest(a + Newest(b)) == Newest(a + b)
  {
  }

  /** From `s` to `r` the position of `p` was closed by the order `o`, and nothing else happened. */
  ghost predicate ClosedOne(s: State, r: State, p: Position, o: Order) {
    && (forall t :: Find(r.positions, t) == if t == p.symbol then None else Find(s.positions, t))
    && r.nextOrderSeq == s.nextOrderSeq + 1 && r.liquidationCount == s.liquidationCount
    && r.orders == Newest([o] + s.orders) && Closes(o, p, s.nextOrderSeq)
  }

  /** From `s` to `r` every position of `ps` was closed, in order, by the orders `made`. */
  ghost predicate ClosedOut(s: State, r: State, ps: seq<Position>, made: seq<Order>) {
    && (forall t :: Find(r.positions, t) == None || Find(r.positions, t) == Find(s.positions, t))
    && (forall p :: p in ps ==> Find(r.positions, p.symbol) == None)
    && r.nextOrderSeq == s.nextOrderSeq + |ps| && r.liquidationCount == s.liquidationCount
    && r.orders == Newest(made + s.orders) && ClosesEach(made, ps, s.nextOrderSeq)
  }

  lemma ClosedOutExtends(s: State, next: State, r: State, ps: seq<Position>, o: Order, later: seq<Order>)
    requires ps != [] && ClosedOne(s, next, ps[0], o) && ClosedOut(next, r, ps[1..], later)
    ensures ClosedOut(s, r, ps, later + [o])
  {
    NewestOfNewest(later, [o] + s.orders);
    assert later + ([o] + s.orders) == (later + [o]) + s.orders;
    ClosesEachExtends(later, o, ps, s.nextOrderSeq);
    assert forall p :: p in ps ==> p == ps[0] || p in ps[1..];
  }

  /** Closing a long at its mark or its entry price, or a short at either, is above zero. */
  lemma LiquidationPriceFits(p: Position, marks: Marks, policy: Policy, floor: nat)
    requires PositionOk(p, floor) && MarksFit(marks, floor) && PolicyFits(policy, floor)
    ensures floor > 0 ==> AggressivePrice(Opposite(p.direction), MarkOf(marks, p), policy.liquidationSlippageBps) > 0
  {
    if floor > 0 {
      if p.direction.Long? {
        SellableAbove(floor, MarkOf(marks, p), policy.liquidationSlippageBps);
      }
      AggressiveFits(Opposite(p.direction), MarkOf(marks, p), policy.liquidationSlippageBps, floor);
    }
  }

  lemma LiquidateAtCloses(s: State, p: Position, marks: Marks, now: int, policy: Policy, floor: nat) returns (o: Order)
    requires LoadedOk(s, floor) && MarksFit(marks, floor) && PolicyFits(policy, floor)
    requires Find(s.positions, p.symbol) == Some(p)
    ensures var r := LiquidateAt(s, p, marks, now, policy);
            LoadedOk(r, floor) && (if MarkOf(marks, p) > 0 then ClosedOne(s, r, p, o) else r == s)
  {
    assert PositionOk(p, floor);
    var price := AggressivePrice(Opposite(p.direction), MarkOf(marks, p), policy.liquidationSlippageBps);
    LiquidationPriceFits(p, marks, policy, floor);
    CloseFillCloses(s, p, price, false, now, policy);
    CloseBookedKeeps(s, p, price, false, None, now, policy, floor);
    o := ClosingOrder(s, p, price, false, None, now, policy);
  }

  lemma {:induction false} LiquidateAllCloses(s: State, ps: seq<Position>, marks: Marks, now: int, policy: Policy,
                                              floor: nat) returns (made: seq<Order>)
    requires LoadedOk(s, floor) && MarksFit(marks, floor) && PolicyFits(policy, floor) && Pending(s, ps)
    requires AllMarked(ps, marks)
    ensures var r := LiquidateAll(s, ps, marks, now, policy);
            LoadedOk(r, floor) && ClosedOut(s, r, ps, made)
    decreases |ps|
  {
    if ps == [] {
      made := [];
      assert made + s.orders == s.orders;
    } else {
      assert ps[0] in ps;
      var o := LiquidateAtCloses(s, ps[0], marks, now, policy, floor);
      var next := LiquidateAt(s, ps[0], marks, now, policy);
      PendingTail(s, ps, next);
      var later := LiquidateAllCloses(next, ps[1..], marks, now, policy, floor);
      made := later + [o];
      ClosedOutExtends(s, next, LiquidateAll(s, ps, marks, now, policy), ps, o, later);
    }
  }

  /** Whatever marks are missing, the loop keeps the account well formed, only closes, and leaves
      exactly the rows it has no mark for. */
  lemma {:induction false} LiquidateAllKeeps(s: State, ps: seq<Position>, marks: Marks, now: int, policy: Policy,
                                             floor: nat)
    requires LoadedOk(s, floor) && MarksFit(marks, floor) && PolicyFits(policy, floor) && Pending(s, ps)
    ensures var r := LiquidateAll(s, ps, marks, now, policy);
            && LoadedOk(r, floor)
            && (forall t :: Find(r.positions, t)
                            == if ClosesIn(ps, marks, t) then None else Find(s.positions, t))
    decreases |ps|
  {
    if ps != [] {
      assert ps[0] in ps;
      var o := LiquidateAtCloses(s, ps[0], marks, now, policy, floor);
      var next := LiquidateAt(s, ps[0], marks, now, policy);
      PendingTail(s, ps, next);
      LiquidateAllKeeps(next, ps[1..], marks, now, policy, floor);
    }
  }

  /** Some row of the list is of this symbol and has a mark to be closed at. */
  predicate ClosesIn(ps: seq<Position>, marks: Marks, t: Symbol) {
    ps != [] && ((ps[0].symbol == t && MarkOf(marks, ps[0]) > 0) || ClosesIn(ps[1..], marks, t))
  }

  lemma {:induction false} ClosesInRow(ps: seq<Position>, marks: Marks, p: Position)
    requires UniqueSymbols(ps) && p in ps
    ensures ClosesIn(ps, marks, p.symbol) <==> MarkOf(marks, p) > 0
  {
    if p == ps[0] {
      NotIn(ps[1..], marks, p.symbol);
    } else {
      ClosesInRow(ps[1..], marks, p);
    }
  }

  lemma {:induction false} NotIn(ps: seq<Position>, marks: Marks, t: Symbol)
    requires forall p :: p in ps ==> p.symbol != t
    ensures !ClosesIn(ps, marks, t)
  {
    if ps != [] {
      assert ps[0] in ps;
      NotIn(ps[1..], marks, t);
    }
  }

  /** A liquidation closes every position, writes one finished reduce-only order for each, counts once,
      and leaves nothing for a second one to do. */
  lemma LiquidationCompletes(s: State, marks: Marks, now: int, policy: Policy, floor: nat) returns (made: seq<Order>)
    requires LoadedOk(s, floor) && MarksFit(marks, floor) && PolicyFits(policy, floor)
    requires MustLiquidate(s, marks, policy) && AllMarked(s.positions, marks)
    ensures var r := Liquidate(s, marks, now, policy);
            && r.changed && LoadedOk(r.state, floor)
            && r.state.positions == []
            && r.state.nextOrderSeq == s.nextOrderSeq + |s.positions|
            && r.state.liquidationCount == s.liquidationCount + 1
            && r.state.orders == Newest(made + s.orders) && ClosesEach(made, s.positions, s.nextOrderSeq)
    ensures var r := Liquidate(s, marks, now, policy).state;
            Liquidate(r, marks, now, policy) == Progress(r, false)
  {
    PendingAtStart(s);
    made := LiquidateAllCloses(s, s.positions, marks, now, policy, floor);
    var r := LiquidateAll(s, s.positions, marks, now, policy);
    forall t ensures Find(r.positions, t).None? {
      if Find(s.positions, t).Some? {
        assert Find(s.positions, t).value in s.positions;
      }
    }
    assert r.positions == [] || Find(r.positions, r.positions[0].symbol).Some?;
  }

  /** It closes every position exactly when each has a mark, or an entry price in its place, above zero. */
  lemma LiquidationClosesAllExactly(s: State, marks: Marks, now: int, policy: Policy, floor: nat)
    requires LoadedOk(s, floor) && MarksFit(marks, floor) && PolicyFits(policy, floor)
    requires MustLiquidate(s, marks, policy)
    ensures Liquidate(s, marks, now, policy).state.positions == [] <==> AllMarked(s.positions, marks)
  {
    if AllMarked(s.positions, marks) {
      var made := LiquidationCompletes(s, marks, now, policy, floor);
    } else {
      var p :| p in s.positions && MarkOf(marks, p) <= 0;
      PendingAtStart(s);
      LiquidateAllKeeps(s, s.positions, marks, now, policy, floor);
      ClosesInRow(s.positions, marks, p);
      assert Find(LiquidateAll(s, s.positions, marks, now, policy).positions, p.symbol) == Some(p);
    }
  }

  /** Liquidating keeps the account well formed and only closes. */
  lemma LiquidateKeeps(s: State, marks: Marks, now: int, policy: Policy, floor: nat)
    requires LoadedOk(s, floor) && MarksFit(marks, floor) && PolicyFits(policy, floor)
    ensures var r := Liquidate(s, marks, now, policy).state;
            && LoadedOk(r, floor)
            && (forall t :: Find(r.positions, t) == None || Find(r.positions, t) == Find(s.positions, t))
  {
    PendingAtStart(s);
    LiquidateAllKeeps(s, s.positions, marks, now, policy, floor);
  }

  predicate Covered(ps: seq<Position>, symbols: set<Symbol>) {
    forall p :: p in ps ==> p.symbol in symbols
  }

  lemma {:induction false} AccrueCovers(w: Progress, i: nat, marks: Marks, now: int, policy: Policy,
                                        symbols: set<Symbol>)
    requires i <= |w.state.positions| && Covered(w.state.positions, symbols)
    ensures Covered(AccrueFrom(w, i, marks, now, policy).state.positions, symbols)
    decreases |w.state.positions| - i
  {
    if i < |w.state.positions| {
      AccrueCovers(AccrueAt(w, i, marks, now, policy), i + 1, marks, now, policy, symbols);
    }
  }

  /** A pass only opens positions in symbols it has a mark for. */
  lemma {:induction false} TouchCovers(w: Progress, i: nat, marks: Marks, now: int, policy: Policy,
                                       symbols: set<Symbol>)
    requires i <= |w.state.orders| && Covered(w.state.positions, symbols) && marks.Keys <= symbols
    ensures Covered(TouchFrom(w, i, marks, now, policy).state.positions, symbols)
    decreases |w.state.orders| - i
  {
    if i < |w.state.orders| {
      TouchAtCovers(w, i, marks, now, policy, symbols);
      TouchCovers(TouchAt(w, i, marks, now, policy), i + 1, marks, now, policy, symbols);
    }
  }

  lemma TouchAtCovers(w: Progress, i: nat, marks: Marks, now: int, policy: Policy, symbols: set<Symbol>)
    requires i < |w.state.orders| && Covered(w.state.positions, symbols) && marks.Keys <= symbols
    ensures Covered(TouchAt(w, i, marks, now, policy).state.positions, symbols)
  {
    var o := w.state.orders[i];
    if Touched(o, marks, policy) {
      var fill := RestingFill(w.state, o, marks[o.symbol], now, policy);
      FillStaysInSymbol(w.state, o, marks[o.symbol], now, policy);
      assert forall p :: p in Replace(w.state.positions, o.symbol, fill.next)
                         ==> p in Without(w.state.positions, o.symbol) || p in AsList(fill.next);
    }
  }

  lemma FillStaysInSymbol(s: State, o: Order, market: int, now: int, policy: Policy)
    ensures var next := RestingFill(s, o, market, now, policy).next;
            next.Some? ==> next.value.symbol == o.symbol
  {
  }

  // ----- one pass -----------------------------------------------------------------------------

  lemma SavedFixes(s: State)
    requires |s.orders| <= MAX_ORDERS
    ensures Saved(s) == s
  {
  }

  /** After a pass the account is well formed and no position whose mark the feed knows is past an
      exit at that mark, whatever was filled before. */
  lemma ReconcileSettles(s: State, feed: Marks, now: int, policy: Policy, floor: nat)
    requires LoadedOk(s, floor) && MarksOk(feed) && MarksFit(feed, floor) && PolicyFits(policy, floor)
    ensures var r := Reconcile(s, feed, now, policy).state;
            && LoadedOk(r, floor)
            && forall p :: p in r.positions ==> !Exits(p, feed)
  {
    var marks := MarksFor(s, feed);
    if marks == map[] {
      forall p | p in s.positions ensures p.symbol !in feed {
        assert p.symbol in Watched(s);
        assert p.symbol !in marks;
      }
    } else {
      var funded := Accrue(s, marks, now, policy);
      AccrueFromKeeps(Progress(s, false), 0, marks, now, policy, floor);
      TouchFromKeeps(funded, 0, marks, now, policy, floor);
      var touched := TouchFrom(funded, 0, marks, now, policy);
      PendingAtStart(touched.state);
      ExitAllCloses(touched, touched.state.positions, marks, now, policy, floor);
      var exited := ExitAll(touched, touched.state.positions, marks, now, policy);
      LiquidateKeeps(exited.state, marks, now, policy, floor);
      var checked := Liquidate(exited.state, marks, now, policy);
      SavedFixes(checked.state);
      AccrueCovers(Progress(s, false), 0, marks, now, policy, Watched(s));
      TouchCovers(funded, 0, marks, now, policy, Watched(s));
      forall p | p in checked.state.positions ensures !Exits(p, feed) {
        Survivor(exited.state, checked.state, p);
        Survivor(touched.state, exited.state, p);
        assert !Exits(p, marks);
        assert p.symbol in Watched(s);
      }
    }
  }

  /** A position left after a loop that only closes was there before it. */
  lemma Survivor(before: State, after: State, p: Position)
    requires UniqueSymbols(after.positions) && p in after.positions
    requires forall t :: Find(after.positions, t) == None || Find(after.positions, t) == Find(before.positions, t)
    ensures p in before.positions && Find(after.positions, p.symbol) == Some(p)
  {
    var i :| 0 <= i < |after.positions| && after.positions[i] == p;
    FindUnique(after.positions, i);
  }
}
