/** The account as the program holds it: one mutable record whose order rows are mutable records of
    their own. Every method is proved to take the account's value where the engine's function says. */
module PaperBook {
  import opened Wrappers
  import opened FixedPoint
  import opened PaperTypes
  import opened Prices
  import opened Orders
  import opened Loading
  import opened Margin
  import opened Engine
  import opened Spot

  /** PaperOrderState */
  class PaperOrder {
    const id: int
    const symbol: Symbol
    const side: Side
    const kind: Kind
    const reduceOnly: bool
    var qty: int
    var price: int
    var trigger: Option<int>
    var takeProfit: Option<int>
    var stopLoss: Option<int>
    var status: Status
    var originalQty: int
    var filledQty: int
    var remainingQty: int
    var averageFillPrice: Option<int>
    var feeUsd: int
    var fillCount: int

    constructor (o: Order)
      ensures View() == o
    {
      id, symbol, side, kind, reduceOnly := o.id, o.symbol, o.side, o.kind, o.reduceOnly;
      qty, price, trigger, takeProfit, stopLoss := o.qty, o.price, o.trigger, o.takeProfit, o.stopLoss;
      status, originalQty, filledQty, remainingQty := o.status, o.originalQty, o.filledQty, o.remainingQty;
      averageFillPrice, feeUsd, fillCount := o.averageFillPrice, o.feeUsd, o.fillCount;
    }

    function View(): Order
      reads this
    {
      Order(id, symbol, side, kind, qty, price, reduceOnly, trigger, takeProfit, stopLoss, status,
            originalQty, filledQty, remainingQty, averageFillPrice, feeUsd, fillCount)
    }

    /** updateOrderQtyFields */
    method UpdateQtyFields()
      modifies this
      ensures View() == Settle(old(View()))
    {
      var remaining := Max(0, Remaining(View()));
      var filled := Max(0, FilledOf(View()));
      var original := Max(filled + remaining, OriginalOf(View()));
      remainingQty := remaining;
      filledQty := filled;
      originalQty := original;
      qty := if status.Open? then remaining else filled;
    }

    /** recordPaperOrderFill */
    method RecordFill(fillQty: int, fillPrice: int, fee: int)
      modifies this
      ensures View() == Orders.RecordFill(old(View()), fillQty, fillPrice, fee)
    {
      var previous := FilledOf(View());
      var next := previous + fillQty;
      var remaining := Max(0, OriginalOf(View()) - next);
      averageFillPrice := if next > 0 then Some(Round(Blend(averageFillPrice, previous, fillPrice, fillQty))) else None;
      filledQty := next;
      remainingQty := remaining;
      feeUsd := feeUsd + fee;
      fillCount := Max(1, fillCount + 1);
      status := if remaining > 1 then Open else Filled;
      UpdateQtyFields();
    }

    /** The assignments of an accepted editPaperOrder. */
    method Edit(e: Engine.Edit)
      modifies this
      ensures View() == EditApplied(old(View()), e)
    {
      if e.price.Some? {
        price := e.price.value;
      }
      if e.qty.Some? {
        originalQty := e.qty.value;
        remainingQty := Max(0, e.qty.value - filledQty);
      }
      trigger := Changed(trigger, e.trigger);
      takeProfit := Changed(takeProfit, e.takeProfit);
      stopLoss := Changed(stopLoss, e.stopLoss);
      UpdateQtyFields();
    }
  }

  function Views(os: seq<PaperOrder>): (r: seq<Order>)
    reads os
    ensures |r| == |os| && forall i :: 0 <= i < |os| ==> r[i] == os[i].View()
  {
    seq(|os|, i requires 0 <= i < |os| reads os => os[i].View())
  }

  lemma {:induction false} CancelMatchingRows(os: seq<Order>, symbol: Option<Symbol>)
    ensures forall k :: 0 <= k < |os| ==> CancelMatching(os, symbol)[k] == CancelledIf(os[k], symbol)
  {
    if os != [] {
      CancelMatchingRows(os[1..], symbol);
    }
  }

  predicate PartlyCancelled(before: seq<Order>, after: seq<Order>, i: nat, symbol: Option<Symbol>) {
    && |after| == |before|
    && (forall k :: i <= k < |before| ==> after[k] == before[k])
    && (forall k :: 0 <= k < i && k < |before| ==> after[k] == CancelledIf(before[k], symbol))
  }

  lemma PartlyExtends(before: seq<Order>, after: seq<Order>, i: nat, symbol: Option<Symbol>)
    requires PartlyCancelled(before, after, i, symbol) && i < |before|
    ensures after[i] == before[i]
    ensures PartlyCancelled(before, after[i := CancelledIf(before[i], symbol)], i + 1, symbol)
    ensures Targets(before[..i + 1], symbol)
         == Targets(before[..i], symbol) + if OpenIn(before[i], symbol) then 1 else 0
  {
    assert before[..i + 1][..i] == before[..i];
  }

  lemma AllCancelled(before: seq<Order>, after: seq<Order>, symbol: Option<Symbol>)
    requires PartlyCancelled(before, after, |before|, symbol)
    ensures after == CancelMatching(before, symbol) && before[..|before|] == before
  {
    CancelMatchingRows(before, symbol);
  }

  twostate lemma SameRows(os: seq<PaperOrder>)
    requires forall o :: o in os ==> unchanged(o)
    ensures Views(os) == old(Views(os))
  {
    forall i | 0 <= i < |os| ensures os[i].View() == old(os[i].View()) {
      assert os[i] in os;
    }
  }

  function NewestRows(os: seq<PaperOrder>): (r: seq<PaperOrder>)
    reads os
    ensures Views(r) == Newest(Views(os))
    ensures forall o :: o in r ==> o in os
    ensures Distinct(os) ==> Distinct(r)
  {
    if |os| > MAX_ORDERS then os[..MAX_ORDERS] else os
  }

  predicate Distinct(os: seq<PaperOrder>) {
    forall i, j :: 0 <= i < j < |os| ==> os[i] != os[j]
  }

  /** PaperState */
  class PaperState {
    var balanceUsd: int
    var realizedPnlUsd: int
    var feesPaidUsd: int
    var fundingAccruedUsd: int
    var totalVolumeUsd: int
    var liquidationCount: int
    var nextOrderSeq: int
    var positions: seq<Position>
    var orders: seq<PaperOrder>

    /** A fresh account with the given value. */
    constructor (s: State)
      ensures Valid() && Model() == s
      ensures forall i :: 0 <= i < |orders| ==> fresh(orders[i])
    {
      balanceUsd, realizedPnlUsd, feesPaidUsd := s.balanceUsd, s.realizedPnlUsd, s.feesPaidUsd;
      fundingAccruedUsd, totalVolumeUsd, liquidationCount := s.fundingAccruedUsd, s.totalVolumeUsd, s.liquidationCount;
      nextOrderSeq, positions := s.nextOrderSeq, s.positions;
      var rows: seq<PaperOrder> := [];
      for i := 0 to |s.orders|
        invariant |rows| == i && Distinct(rows) && (forall k :: 0 <= k < i ==> fresh(rows[k]))
        invariant forall k :: 0 <= k < i ==> rows[k].View() == s.orders[k]
      {
        var row := new PaperOrder(s.orders[i]);
        rows := rows + [row];
      }
      orders := rows;
    }

    ghost predicate Valid()
      reads this
    {
      Distinct(orders)
    }

    /** The account's value. */
    function Model(): State
      reads this, orders
    {
      State(balanceUsd, realizedPnlUsd, feesPaidUsd, fundingAccruedUsd, totalVolumeUsd, liquidationCount,
            nextOrderSeq, positions, Views(orders))
    }

    /** applyPaperBalanceDelta */
    method ApplyBalanceDelta(realized: int, feeUsd: int, funding: int, volume: real)
      requires Valid()
      modifies this`balanceUsd, this`realizedPnlUsd, this`feesPaidUsd, this`fundingAccruedUsd, this`totalVolumeUsd
      ensures Model() == BalanceDelta(old(Model()), realized, feeUsd, funding, volume)
    {
      realizedPnlUsd := realizedPnlUsd + realized;
      feesPaidUsd := feesPaidUsd + feeUsd;
      fundingAccruedUsd := fundingAccruedUsd + funding;
      totalVolumeUsd := totalVolumeUsd + Max(0, Round(volume));
      balanceUsd := balanceUsd + realized + funding - feeUsd;
    }

    /** replacePosition */
    method ReplacePosition(symbol: Symbol, next: Option<Position>)
      requires Valid()
      modifies this`positions
      ensures positions == Replace(old(positions), symbol, next)
    {
      positions := Without(positions, symbol);
      if next.Some? {
        positions := positions + [next.value];
      }
    }

    /** An accepted fill: the money moves, then the position is replaced. */
    method BookFill(symbol: Symbol, fill: FillResult, price: int)
      requires Valid()
      modifies this
      ensures Valid() && orders == old(orders)
      ensures Model() == Book(old(Model()), symbol, fill, price)
    {
      ApplyBalanceDelta(fill.realizedPnl, fill.feeUsd, 0, Value(fill.filledQty, price));
      ReplacePosition(symbol, fill.next);
    }

    /** pushPaperOrder */
    method PushOrder(order: PaperOrder)
      requires Valid() && order !in orders
      modifies this`orders, order
      ensures Valid() && (forall o :: o in orders ==> o == order || o in old(orders))
      ensures Model() == Push(old(Model()), old(order.View()))
    {
      order.UpdateQtyFields();
      SameRows(orders);
      assert Views([order] + orders) == [order.View()] + Views(orders);
      orders := NewestRows([order] + orders);
    }

    /** One position of accruePaperFunding. */
    method AccruePosition(i: nat, marks: Marks, now: int, policy: Policy, before: bool) returns (changed: bool)
      requires Valid() && i < |positions|
      modifies this
      ensures Valid() && orders == old(orders) && |positions| == |old(positions)|
      ensures Progress(Model(), changed) == AccrueAt(Progress(old(Model()), before), i, marks, now, policy)
    {
      changed := before;
      var p := positions[i];
      var mark := MarkOf(marks, p);
      if mark <= 0 || IntervalsDue(p, now, policy) <= 0 {
        return;
      }
      var funding := FundingDue(p, mark, now, policy);
      if funding != 0.0 {
        ApplyBalanceDelta(0, 0, Round(funding), 0.0);
        changed := true;
      }
      positions := positions[i := Advanced(p, now, policy)];
    }

    /** accruePaperFunding */
    method AccrueFunding(marks: Marks, now: int, policy: Policy) returns (changed: bool)
      requires Valid()
      modifies this
      ensures Valid() && orders == old(orders)
      ensures Progress(Model(), changed) == Accrue(old(Model()), marks, now, policy)
    {
      changed := false;
      if !policy.fundingFixedRate || policy.fundingRateBpsPerHour <= 0.0 {
        return;
      }
      for i := 0 to |positions|
        invariant Valid() && |positions| == |old(positions)| && orders == old(orders)
        invariant AccrueFrom(Progress(Model(), changed), i, marks, now, policy)
               == AccrueFrom(Progress(old(Model()), false), 0, marks, now, policy)
      {
        changed := AccruePosition(i, marks, now, policy, changed);
      }
    }

    /** One order of the first loop of reconcilePaperState. */
    method TouchOrder(i: nat, marks: Marks, now: int, policy: Policy, before: bool) returns (changed: bool)
      requires Valid() && i < |orders|
      modifies this, orders
      ensures Valid() && orders == old(orders)
      ensures Progress(Model(), changed) == TouchAt(Progress(old(Model()), before), i, marks, now, policy)
    {
      changed := before;
      var order := orders[i];
      if Touched(order.View(), marks, policy) {
        var market := marks[order.symbol];
        var price := RestingPrice(order.View(), market, policy);
        var fill := RestingFill(Model(), order.View(), market, now, policy);
        if fill.filledQty > 0 {
          changed := true;
          BookFill(order.symbol, fill, price);
          order.RecordFill(fill.filledQty, price, fill.feeUsd);
        }
      }
    }

    /** The first loop of reconcilePaperState. */
    method TouchOrders(marks: Marks, now: int, policy: Policy, before: bool) returns (changed: bool)
      requires Valid()
      modifies this, orders
      ensures Valid() && orders == old(orders)
      ensures Progress(Model(), changed) == TouchFrom(Progress(old(Model()), before), 0, marks, now, policy)
    {
      changed := before;
      ghost var goal := TouchFrom(Progress(Model(), before), 0, marks, now, policy);
      var rows := orders;
      for i := 0 to |rows|
        invariant Valid() && orders == rows == old(orders)
        invariant TouchFrom(Progress(Model(), changed), i, marks, now, policy) == goal
      {
        changed := TouchOrder(i, marks, now, policy, changed);
      }
    }

    /** A close that filled, written down as a finished reduce-only market order. */
    method WriteClose(p: Position, fill: FillResult, price: int, trigger: Option<int>)
      requires Valid()
      modifies this
      ensures Valid() && (forall o :: o in orders ==> o in old(orders) || fresh(o))
      ensures Model() == CloseBooked(old(Model()), p, fill, price, trigger)
    {
      BookFill(p.symbol, fill, price);
      var order := new PaperOrder(FilledOrder(nextOrderSeq, p.symbol, Opposite(p.direction), fill.filledQty, price,
                                              trigger,
                                              p.takeProfit, p.stopLoss, fill.feeUsd));
      nextOrderSeq := nextOrderSeq + 1;
      PushOrder(order);
    }

    /** One position of the second loop of reconcilePaperState. */
    method ExitPosition(p: Position, marks: Marks, now: int, policy: Policy, before: bool) returns (changed: bool)
      requires Valid()
      modifies this
      ensures Valid() && (forall o :: o in orders ==> o in old(orders) || fresh(o))
      ensures Progress(Model(), changed) == ExitAt(Progress(old(Model()), before), p, marks, now, policy)
    {
      changed := before;
      if p.symbol !in marks || marks[p.symbol] == 0 {
        return;
      }
      var trigger := ExitTrigger(p, marks[p.symbol]);
      if trigger.None? {
        return;
      }
      var price := ExitPrice(p, marks[p.symbol], trigger.value, policy);
      var fill := CloseFill(Model(), p, price, p.takeProfit == trigger, now, policy);
      if fill.filledQty <= 0 {
        return;
      }
      changed := true;
      WriteClose(p, fill, price, trigger);
    }

    /** The second loop of reconcilePaperState, over the positions held when it starts. */
    method ExitPositions(marks: Marks, now: int, policy: Policy, before: bool) returns (changed: bool)
      requires Valid()
      modifies this
      ensures Valid() && (forall o :: o in orders ==> o in old(orders) || fresh(o))
      ensures Progress(Model(), changed) == ExitAll(Progress(old(Model()), before), old(positions), marks, now, policy)
    {
      changed := before;
      var held := positions;
      for i := 0 to |held|
        invariant Valid() && (forall o :: o in orders ==> o in old(orders) || fresh(o))
        invariant ExitAll(Progress(Model(), changed), held[i..], marks, now, policy)
               == ExitAll(Progress(old(Model()), before), held, marks, now, policy)
      {
        changed := ExitPosition(held[i], marks, now, policy, changed);
        assert held[i..][1..] == held[i + 1..];
      }
    }

    /** One position of the loop of liquidatePaperPositionsIfNeeded. */
    method LiquidatePosition(p: Position, marks: Marks, now: int, policy: Policy)
      requires Valid()
      modifies this
      ensures Valid() && (forall o :: o in orders ==> o in old(orders) || fresh(o))
      ensures Model() == LiquidateAt(old(Model()), p, marks, now, policy)
    {
      var mark := MarkOf(marks, p);
      if mark <= 0 {
        return;
      }
      var price := AggressivePrice(Opposite(p.direction), mark, policy.liquidationSlippageBps);
      var fill := CloseFill(Model(), p, price, false, now, policy);
      if fill.filledQty > 0 {
        WriteClose(p, fill, price, None);
      }
    }

    /** liquidatePaperPositionsIfNeeded */
    method LiquidateIfNeeded(marks: Marks, now: int, policy: Policy) returns (liquidated: bool)
      requires Valid()
      modifies this
      ensures Valid() && (forall o :: o in orders ==> o in old(orders) || fresh(o))
      ensures Progress(Model(), liquidated) == Liquidate(old(Model()), marks, now, policy)
    {
      if !Valuation(Model(), marks, policy).status.Liquidation? || positions == [] {
        return false;
      }
      var held := positions;
      ghost var reached := Model();
      for i := 0 to |held|
        invariant Valid() && (forall o :: o in orders ==> o in old(orders) || fresh(o))
        invariant reached == Model()
        invariant LiquidateAll(reached, held[i..], marks, now, policy)
                 == LiquidateAll(old(Model()), held, marks, now, policy)
      {
        LiquidatePosition(held[i], marks, now, policy);
        assert held[i..][1..] == held[i + 1..];
        reached := Model();
      }
      liquidationCount := liquidationCount + 1;
      liquidated := true;
    }

    /** reconcilePaperState, on the account in memory */
    method Reconcile(feed: Marks, now: int, policy: Policy) returns (changed: bool)
      requires Valid()
      modifies this, orders
      ensures Valid() && (forall o :: o in orders ==> o in old(orders) || fresh(o))
      ensures Progress(Model(), changed) == Engine.Reconcile(old(Model()), feed, now, policy)
    {
      var marks := MarksFor(Model(), feed);
      if marks == map[] {
        return false;
      }
      changed := AccrueFunding(marks, now, policy);
      changed := TouchOrders(marks, now, policy, changed);
      changed := ExitPositions(marks, now, policy, changed);
      var liquidated := LiquidateIfNeeded(marks, now, policy);
      changed := changed || liquidated;
      if changed {
        TrimOrders();
      }
    }

    /** The order list is cut to its newest rows before it is saved. */
    method TrimOrders()
      requires Valid()
      modifies this`orders
      ensures Valid() && (forall o :: o in orders ==> o in old(orders))
      ensures Model() == Saved(old(Model()))
    {
      orders := NewestRows(orders);
    }

    /** The next order number is taken. */
    method TakeNumber()
      modifies this`nextOrderSeq
      ensures Model() == Numbered(old(Model()))
    {
      nextOrderSeq := nextOrderSeq + 1;
    }

    /** The immediate execution of a new order in placePaperOrder. */
    method ExecuteOrder(order: PaperOrder, market: int, now: int, policy: Policy) returns (error: Option<Error>)
      requires Valid() && order !in orders
      modifies this, order
      ensures Valid() && (forall o :: o in orders ==> o == order || o in old(orders) || fresh(o))
      ensures error.None? ==> Engine.Execute(old(Model()), old(order.View()), market, now, policy) == Ok(Model())
      ensures error.Some? ==> Engine.Execute(old(Model()), old(order.View()), market, now, policy) == Err(error.value)
    {
      TakeNumber();
      var price := PlacedPrice(order.View(), market, policy);
      var fill := PlacedFill(Model(), order.View(), market, now, policy);
      error := FinishOrder(order, fill, price, market, now, policy);
    }

    /** An order that filled nothing is rejected; another is booked and listed, and the account checked. */
    method FinishOrder(order: PaperOrder, fill: FillResult, price: int, market: int, now: int, policy: Policy)
      returns (error: Option<Error>)
      requires Valid() && order !in orders
      modifies this, order
      ensures Valid() && (forall o :: o in orders ==> o == order || o in old(orders) || fresh(o))
      ensures error.None?
              ==> Engine.Finish(old(Model()), old(order.View()), fill, price, market, now, policy) == Ok(Model())
      ensures error.Some?
              ==> Engine.Finish(old(Model()), old(order.View()), fill, price, market, now, policy) == Err(error.value)
    {
      if fill.filledQty <= 0 {
        return Some(if order.reduceOnly then ReduceOnlyRejected else MarginInsufficient);
      }
      ListExecuted(order, fill, price);
      var liquidated := LiquidateIfNeeded(map[order.symbol := market], now, policy);
      error := None;
    }

    /** Books an order's first fill, records it on the order and lists the order. */
    method ListExecuted(order: PaperOrder, fill: FillResult, price: int)
      requires Valid() && order !in orders
      modifies this, order
      ensures Valid() && (forall o :: o in orders ==> o == order || o in old(orders) || fresh(o))
      ensures Model() == Executed(old(Model()), old(order.View()), fill, price)
    {
      BookFill(order.symbol, fill, price);
      order.RecordFill(fill.filledQty, price, fill.feeUsd);
      SameRows(orders);
      if order.status.Open? {
        PushOrder(order);
      } else {
        var restated := new PaperOrder(Restated(order.View(), price));
        PushOrder(restated);
      }
    }

    /** placePaperOrder, from the reconciled account on */
    method Place(t: Ticket, market: int, now: int, policy: Policy) returns (error: Option<Error>)
      requires Valid()
      modifies this
      ensures Valid() && (forall o :: o in orders ==> o in old(orders) || fresh(o))
      ensures error.None? ==> Engine.Place(old(Model()), t, market, now, policy) == Ok(Model())
      ensures error.Some? ==> Engine.Place(old(Model()), t, market, now, policy) == Err(error.value)
    {
      var row := PlacedOrder(Model(), t, market);
      var order := new PaperOrder(row);
      if Immediate(row, market) {
        error := ExecuteOrder(order, market, now, policy);
      } else {
        ListResting(order);
        error := None;
      }
    }

    /** An order that rests takes its number and is listed. */
    method ListResting(order: PaperOrder)
      requires Valid() && order !in orders
      modifies this, order
      ensures Valid() && (forall o :: o in orders ==> o == order || o in old(orders))
      ensures Model() == Push(Numbered(old(Model())), old(order.View()))
    {
      TakeNumber();
      PushOrder(order);
    }

    /** editPaperOrder, from the reconciled account on */
    method EditOrder(e: Edit) returns (error: Option<Error>)
      requires Valid()
      modifies orders
      ensures error.None? ==> Engine.EditOrder(old(Model()), e) == Ok(Model())
      ensures error.Some? ==> Engine.EditOrder(old(Model()), e) == Err(error.value) && Model() == old(Model())
    {
      var i := FindOpen(Views(orders), e.id, e.symbol);
      if i.None? {
        return Some(OrderNotFound);
      }
      error := EditRefused(orders[i.value].View(), e);
      if error.None? {
        orders[i.value].Edit(e);
        assert Views(orders) == old(Views(orders))[i.value := orders[i.value].View()];
      }
    }

    /** cancelPaperOrder, from the reconciled account on */
    method CancelOrder(id: int, symbol: Option<Symbol>) returns (found: bool)
      requires Valid()
      modifies orders
      ensures found == FindOpen(old(Model()).orders, id, symbol).Some?
      ensures Model() == Engine.CancelOrder(old(Model()), id, symbol)
    {
      var i := FindOpen(Views(orders), id, symbol);
      found := i.Some?;
      if found {
        CancelRow(i.value);
      }
    }

    /** cancelAllPaperOrders, from the reconciled account on */
    method CancelAll(symbol: Option<Symbol>) returns (cancelled: nat)
      requires Valid()
      modifies orders
      ensures Model() == Engine.CancelAll(old(Model()), symbol)
      ensures cancelled == Targets(old(Model()).orders, symbol)
    {
      cancelled := 0;
      ghost var before := Views(orders);
      for i := 0 to |orders|
        invariant PartlyCancelled(before, Views(orders), i, symbol)
        invariant cancelled == Targets(before[..i], symbol)
      {
        PartlyExtends(before, Views(orders), i, symbol);
        var target := CancelTarget(i, symbol);
        cancelled := if target then cancelled + 1 else cancelled;
      }
      AllCancelled(before, Views(orders), symbol);
    }

    method CancelTarget(i: nat, symbol: Option<Symbol>) returns (target: bool)
      requires Valid() && i < |orders|
      modifies orders
      ensures target == OpenIn(old(Views(orders))[i], symbol)
      ensures Views(orders) == old(Views(orders))[i := CancelledIf(old(Views(orders))[i], symbol)]
    {
      target := OpenIn(orders[i].View(), symbol);
      if target {
        CancelRow(i);
      }
    }

    method CancelRow(i: nat)
      requires Valid() && i < |orders|
      modifies orders
      ensures Views(orders) == old(Views(orders))[i := old(orders[i].View()).(status := Cancelled)]
    {
      orders[i].status := Cancelled;
    }

    /** setPaperPositionTpSl, from the reconciled account on */
    method SetExits(symbol: Symbol, direction: Option<Direction>, takeProfit: Change, stopLoss: Change)
      returns (error: Option<Error>)
      requires Valid()
      modifies this`positions
      ensures error.None? ==> Engine.SetExits(old(Model()), symbol, direction, takeProfit, stopLoss) == Ok(Model())
      ensures error.Some? ==> Engine.SetExits(old(Model()), symbol, direction, takeProfit, stopLoss) == Err(error.value)
    {
      var i := FindHeld(positions, symbol, direction);
      if i.None? {
        return Some(PositionNotFound);
      }
      var p := positions[i.value];
      positions := positions[i.value := p.(takeProfit := Changed(p.takeProfit, takeProfit),
                                           stopLoss := Changed(p.stopLoss, stopLoss))];
      error := None;
    }

    /** applyPaperSpotFill: cash moves here, the position is the caller's to replace */
    method ApplySpotFill(symbol: Symbol, side: Side, qty: int, price: int, now: int)
      returns (r: Result<SpotOutcome, SpotError>)
      modifies this`balanceUsd
      ensures r == SpotFill(old(balanceUsd), Find(positions, symbol), symbol, side, qty, price, now)
      ensures balanceUsd == if r.Ok? then r.value.balance else old(balanceUsd)
    {
      var current := Find(positions, symbol);
      if current.Some? && !current.value.direction.Long? {
        return Err(ShortNotSupported);
      }
      if price <= 0 {
        return Err(SpotError.InvalidPrice);
      }
      var size := Abs(qty);
      if size <= 0 {
        return Err(SpotError.InvalidQty);
      }
      var amount := Value(size, price);
      if side.Buy? {
        if balanceUsd as real + 1.0 < amount {
          return Err(InsufficientQuote);
        }
        balanceUsd := Round(balanceUsd as real - amount);
        return Ok(SpotOutcome(size, 0, Some(Bought(current, symbol, size, price, now)), balanceUsd));
      }
      if current.None? || current.value.qty <= 0 || current.value.qty + 1 < size {
        return Err(InsufficientBase);
      }
      balanceUsd := Round(balanceUsd as real + amount);
      var rest := current.value.qty - size;
      r := Ok(SpotOutcome(size, Round(Value(size, price - current.value.entryPrice)),
                          if rest <= 1 then None else Some(current.value.(qty := rest)), balanceUsd));
    }

    /** One resting order of reconcilePaperSpotState. */
    method SpotTouchOrder(i: nat, now: int) returns (error: Option<SpotError>)
      requires Valid() && i < |orders|
      modifies this, orders
      ensures Valid() && orders == old(orders)
      ensures var o := old(orders[i].View());
              var r := SpotApply(old(Model()), o.symbol, o.side, o.qty, o.price, now);
              && (error.None? ==> r.Ok? && Model() == r.value.(orders := r.value.orders[i := SpotFilledOrder(o)]))
              && (error.Some? ==> r == Err(error.value))
    {
      var order := orders[i];
      var r := ApplySpotFill(order.symbol, order.side, order.qty, order.price, now);
      if r.Err? {
        return Some(r.error);
      }
      BookSpotFill(i, r.value);
      error := None;
    }

    /** placePaperSpotOrder, from the reconciled account on */
    method PlaceSpot(t: SpotTicket, market: int, now: int) returns (error: Option<SpotError>)
      requires Valid()
      modifies this
      ensures Valid() && (forall o :: o in orders ==> o in old(orders) || fresh(o))
      ensures error.None? ==> SpotPlace(old(Model()), t, market, now) == Ok(Model())
      ensures error.Some? ==> SpotPlace(old(Model()), t, market, now) == Err(error.value)
    {
      if t.kind.Limit? && (t.limit.None? || t.limit.value <= 0) {
        return Some(LimitRequiresPrice);
      }
      var id := nextOrderSeq;
      TakeNumber();
      var price := SpotPrice(t, market);
      if SpotRests(t, market) {
        ListSpot(SpotOrder(id, t, t.qty, price, Open));
        return None;
      }
      error := FillSpot(t, price, now);
      if error.None? {
        ListSpot(SpotOrder(id, t, Abs(t.qty), price, Filled));
      }
    }

    method ListSpot(row: Order)
      requires Valid()
      modifies this
      ensures Valid() && (forall o :: o in orders ==> o in old(orders) || fresh(o))
      ensures Model() == Push(old(Model()), row)
    {
      var order := new PaperOrder(row);
      PushOrder(order);
    }

    /** The fill of an order that executes at once. */
    method FillSpot(t: SpotTicket, price: int, now: int) returns (error: Option<SpotError>)
      requires Valid()
      modifies this
      ensures Valid() && orders == old(orders)
      ensures var r := SpotApply(old(Model()), t.symbol, t.side, t.qty, price, now);
              if error.None? then r == Ok(Model()) else r == Err(error.value) && Model() == old(Model())
    {
      var r := ApplySpotFill(t.symbol, t.side, t.qty, price, now);
      if r.Err? {
        return Some(r.error);
      }
      BookSpot(t.symbol, r.value);
      error := None;
    }

    /** The realized amount and the position of a fill whose cash has moved. */
    method BookSpot(symbol: Symbol, out: SpotOutcome)
      requires Valid() && balanceUsd == out.balance
      modifies this`realizedPnlUsd, this`positions
      ensures Model() == SpotBooked(old(Model()), symbol, out)
    {
      realizedPnlUsd := realizedPnlUsd + out.realizedPnl;
      ReplacePosition(symbol, out.next);
    }

    /** What reconcilePaperSpotState does with the fill of one of its orders. */
    method BookSpotFill(i: nat, out: SpotOutcome)
      requires Valid() && i < |orders| && out.filledQty == Abs(orders[i].qty) && balanceUsd == out.balance
      modifies this, orders
      ensures Valid() && orders == old(orders)
      ensures var o := old(orders[i].View());
              var booked := SpotBooked(old(Model()), o.symbol, out);
              Model() == booked.(orders := booked.orders[i := SpotFilledOrder(o)])
    {
      var order := orders[i];
      BookSpot(order.symbol, out);
      order.qty := out.filledQty;
      order.status := Filled;
      assert Views(orders) == old(Views(orders))[i := order.View()];
    }

    /** reconcilePaperSpotState, on the account in memory; an error leaves the loop at once. `reached` is the
        account the loop has come to. */
    method ReconcileSpot(feed: Marks, only: Option<Symbol>, now: int) returns (error: Option<SpotError>)
      requires Valid()
      modifies this, orders
      ensures Valid() && orders == old(orders)
      ensures SpotReconcileFrom(old(Model()), 0, feed, only, now)
           == if error.None? then Ok(Model()) else Err(error.value)
    {
      ghost var reached := Model();
      for i := 0 to |orders|
        invariant Valid() && orders == old(orders) && reached == Model()
        invariant SpotReconcileFrom(reached, i, feed, only, now)
               == SpotReconcileFrom(old(Model()), 0, feed, only, now)
      {
        error := SpotVisit(i, feed, only, now);
        if error.Some? {
          return;
        }
        reached := Model();
      }
      SpotReconcileEnds(reached, feed, only, now);
      error := None;
    }

    method SpotVisit(i: nat, feed: Marks, only: Option<Symbol>, now: int) returns (error: Option<SpotError>)
      requires Valid() && i < |orders|
      modifies this, orders
      ensures Valid() && orders == old(orders)
      ensures SpotReconcileFrom(old(Model()), i, feed, only, now)
           == if error.None? then SpotReconcileFrom(Model(), i + 1, feed, only, now) else Err(error.value)
    {
      SpotReconcileUnfolds(Model(), i, feed, only, now);
      error := None;
      if SpotTouched(orders[i].View(), feed, only) {
        error := SpotTouchOrder(i, now);
      }
    }
  }
}
