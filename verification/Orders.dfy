/** One order's quantities: how fills and edits move them, and what they add up to. */
module Orders {
  import opened Wrappers
  import opened FixedPoint
  import opened PaperTypes

  function Remaining(o: Order): int {
    if !o.status.Open? then 0 else if o.remainingQty > 0 then o.remainingQty else o.qty
  }

  function FilledOf(o: Order): int {
    if o.filledQty >= 0 then o.filledQty else if o.status.Filled? then o.qty else 0
  }

  function OriginalOf(o: Order): int {
    if o.originalQty > 0 then o.originalQty else FilledOf(o) + Remaining(o)
  }

  /** updateOrderQtyFields */
  function Settle(o: Order): Order {
    var remaining := Max(0, Remaining(o));
    var filled := Max(0, FilledOf(o));
    o.(remainingQty := remaining,
       filledQty := filled,
       originalQty := Max(filled + remaining, OriginalOf(o)),
       qty := if o.status.Open? then remaining else filled)
  }

  /** createPaperOrderState for an order that has just been accepted. */
  function NewOrder(id: int, symbol: Symbol, side: Side, kind: Kind, qty: int, price: int, reduceOnly: bool,
                    trigger: Option<int>, takeProfit: Option<int>, stopLoss: Option<int>): Order
  {
    Settle(Order(id, symbol, side, kind, Abs(qty), price, reduceOnly, trigger, takeProfit, stopLoss,
                 Open, Abs(qty), 0, Max(0, qty), None, 0, 0))
  }

  /** createPaperOrderState for an order written down already filled, at one price. */
  function FilledOrder(id: int, symbol: Symbol, side: Side, qty: int, price: int, trigger: Option<int>,
                       takeProfit: Option<int>, stopLoss: Option<int>, feeUsd: int): Order
  {
    Settle(Order(id, symbol, side, Market, Abs(qty), price, true, trigger, takeProfit, stopLoss,
                 Filled, Abs(qty), Max(0, qty), 0, ToPositive(Some(price)), Max(0, feeUsd), 1))
  }

  /** createPaperOrderState for an order that filled completely while it was being placed. */
  function Restated(o: Order, price: int): Order {
    Settle(o.(qty := Abs(o.qty), price := price,
              originalQty := Abs(o.originalQty), filledQty := Max(0, o.filledQty),
              remainingQty := Max(0, o.remainingQty), averageFillPrice := ToPositive(o.averageFillPrice),
              feeUsd := Max(0, o.feeUsd), fillCount := Max(0, o.fillCount)))
  }

  function OrZero(x: Option<int>): int {
    if x.Some? then x.value else 0
  }

  /** Average fill price after adding `qty` at `price`, before rounding. */
  function Blend(average: Option<int>, filled: int, price: int, qty: int): real
    requires filled + qty > 0
  {
    (OrZero(average) * filled + price * qty) as real / (filled + qty) as real
  }

  /** recordPaperOrderFill */
  function RecordFill(o: Order, qty: int, price: int, feeUsd: int): Order {
    var filled := FilledOf(o) + qty;
    var remaining := Max(0, OriginalOf(o) - filled);
    Settle(o.(filledQty := filled,
              remainingQty := remaining,
              averageFillPrice := if filled > 0 then Some(Round(Blend(o.averageFillPrice, FilledOf(o), price, qty)))
                                  else None,
              feeUsd := o.feeUsd + feeUsd,
              fillCount := Max(1, o.fillCount + 1),
              status := if remaining > 1 then Open else Filled))
  }

  /** The configured part of a remainder, or all of it when the part rounds to nothing or leaves a unit. */
  function PartOf(remaining: int, policy: Policy): int {
    var r := policy.limitPartialFillRatio;
    var ratio := if r < 0.1 then 0.1 else if r > 1.0 then 1.0 else r;
    var part := Round(remaining as real * ratio);
    if part <= 0 || part >= remaining - 1 then remaining else part
  }

  /** resolvePaperLimitFillQty: part of an untouched limit order, the rest of a touched one. */
  function LimitFillQty(o: Order, policy: Policy): int {
    var remaining := Remaining(o);
    if remaining <= 0 then 0 else if o.fillCount > 0 then remaining else PartOf(remaining, policy)
  }

  /** What one touch asks to fill. */
  function TouchQty(o: Order, policy: Policy): int {
    if o.kind.Limit? then LimitFillQty(o, policy) else Remaining(o)
  }

  /** editPaperOrder's change of quantity, once accepted. */
  function Resize(o: Order, qty: int): Order {
    Settle(o.(originalQty := qty, remainingQty := Max(0, qty - o.filledQty)))
  }

  /** An edit may not go below what is filled, by more than one unit. */
  predicate ResizeAccepted(o: Order, qty: int) {
    qty > 0 && qty + 1 >= o.filledQty
  }

  /** The books of a single order balance. */
  predicate QuantitiesOk(o: Order) {
    && o.filledQty >= 0
    && o.qty > 0
    && match o.status
       case Filled => o.remainingQty == 0 && o.qty == o.filledQty && 0 <= o.originalQty - o.filledQty <= 1
       case _ => o.filledQty + o.remainingQty == o.originalQty && o.qty == o.remainingQty
  }

  /** A plain limit order is open with at most one fill behind it and ends with at most two. */
  predicate TouchesOk(o: Order) {
    o.fillCount >= 0 && (o.kind.Limit? && !o.reduceOnly ==> o.fillCount <= if o.status.Filled? then 2 else 1)
  }

  /** Its amounts are real ones: a positive price, and an average price once something is filled. */
  predicate PricesPositive(o: Order) {
    && o.price > 0
    && o.feeUsd >= 0
    && (o.averageFillPrice.Some? ==> o.averageFillPrice.value > 0)
    && (o.filledQty > 0 ==> o.averageFillPrice.Some?)
  }

  /** A well-formed order; see Loading.StoredOk for the floor. */
  predicate OrderOk(o: Order, floor: nat) {
    QuantitiesOk(o) && TouchesOk(o) && (floor > 0 ==> PricesPositive(o))
  }

  /** The amounts a fill is recorded with. */
  predicate AmountsFit(price: int, feeUsd: int, floor: nat) {
    floor > 0 ==> price > 0 && feeUsd >= 0
  }

  /** A partial touch fills at least one unit and, if it leaves anything, leaves more than one. */
  lemma TouchLeavesMoreThanOne(o: Order, policy: Policy)
    requires QuantitiesOk(o) && o.status.Open?
    ensures 0 < TouchQty(o, policy) <= o.remainingQty
    ensures TouchQty(o, policy) < o.remainingQty ==> TouchQty(o, policy) < o.remainingQty - 1
    ensures o.fillCount > 0 || o.kind.Market? ==> TouchQty(o, policy) == o.remainingQty
  {
  }

  lemma BlendPositive(average: Option<int>, filled: int, price: int, qty: int)
    requires filled >= 0 && qty > 0 && price > 0
    requires filled > 0 ==> average.Some? && average.value > 0
    ensures Round(Blend(average, filled, price, qty)) > 0
  {
    var a := OrZero(average);
    var n := a * filled + price * qty;
    assert a * filled >= filled && price * qty >= qty;
    DivideBound(n as real, 1.0, (filled + qty) as real);
  }

  /** Every fill the engine can record keeps the order's books; a full fill finishes the order. */
  lemma RecordFillKeepsOrder(o: Order, qty: int, price: int, feeUsd: int, policy: Policy, floor: nat)
    requires OrderOk(o, floor) && o.status.Open? && 0 < qty <= TouchQty(o, policy) && AmountsFit(price, feeUsd, floor)
    requires !o.reduceOnly ==> qty == TouchQty(o, policy)
    ensures var n := RecordFill(o, qty, price, feeUsd);
            && OrderOk(n, floor)
            && n.filledQty == o.filledQty + qty
            && n.originalQty == o.originalQty
            && (n.status.Filled? <==> o.remainingQty - qty <= 1)
            && n.fillCount == o.fillCount + 1
            && n.id == o.id && n.reduceOnly == o.reduceOnly && n.kind == o.kind && n.symbol == o.symbol
  {
    TouchLeavesMoreThanOne(o, policy);
    if floor > 0 {
      BlendPositive(o.averageFillPrice, o.filledQty, price, qty);
    }
  }

  /** An accepted edit keeps the books whatever quantity it asks for. It takes the quantity asked for
      exactly when that is above what is filled; otherwise the order keeps its old remainder. */
  lemma ResizeKeepsOrder(o: Order, qty: int, floor: nat)
    requires OrderOk(o, floor) && o.status.Open? && ResizeAccepted(o, qty)
    ensures OrderOk(Resize(o, qty), floor)
    ensures Resize(o, qty).originalQty == qty <==> qty > o.filledQty
    ensures qty > o.filledQty ==> Resize(o, qty).remainingQty == qty - o.filledQty
    ensures qty <= o.filledQty ==> Resize(o, qty) == o
  {
  }

  /** An order for 10, with 4 filled, edited down to 4: it is still open for the old 6. */
  lemma ResizeToFilledRevives()
    ensures exists o: Order, qty: int :: OrderOk(o, 1) && o.status.Open? && ResizeAccepted(o, qty)
                                         && qty == o.filledQty && Resize(o, qty).remainingQty == 6
  {
    var o := Order(1, "BTCUSDT", Buy, Limit, 6, 100, false, None, None, None, Open, 10, 4, 6, Some(100), 0, 1);
    assert OrderOk(o, 1) && ResizeAccepted(o, 4) && Resize(o, 4).remainingQty == 6;
  }

  /** What can happen to an open order: a fill of some quantity, or an edit of its size. */
  datatype Event = Fill(qty: int, price: int, feeUsd: int) | Edit(newQty: int)

  function Handle(o: Order, e: Event): Order {
    if e.Fill? then RecordFill(o, e.qty, e.price, e.feeUsd) else Resize(o, e.newQty)
  }

  function History(o: Order, es: seq<Event>): Order {
    if es == [] then o else Handle(History(o, es[..|es| - 1]), es[|es| - 1])
  }

  /** The events the engine can produce: each meets an open order, a fill takes what a touch asks for
      (less only if reduce-only), an edit passes its check. */
  predicate Possible(o: Order, es: seq<Event>, policy: Policy, floor: nat) {
    es == [] ||
    (var before := History(o, es[..|es| - 1]);
     && Possible(o, es[..|es| - 1], policy, floor)
     && Admits(before, es[|es| - 1], policy, floor))
  }

  /** One of them, on the order it meets. */
  predicate Admits(o: Order, e: Event, policy: Policy, floor: nat) {
    && o.status.Open?
    && match e
       case Fill(qty, price, feeUsd) =>
         0 < qty <= TouchQty(o, policy) && AmountsFit(price, feeUsd, floor)
           && (!o.reduceOnly ==> qty == TouchQty(o, policy))
       case Edit(newQty) => ResizeAccepted(o, newQty)
  }

  function FillsIn(es: seq<Event>): nat {
    if es == [] then 0 else FillsIn(es[..|es| - 1]) + if es[|es| - 1].Fill? then 1 else 0
  }

  /** Exact sum of price times quantity over the fills. */
  function NotionalIn(es: seq<Event>): int {
    if es == [] then 0
    else
      var e := es[|es| - 1];
      NotionalIn(es[..|es| - 1]) + if e.Fill? then e.qty * e.price else 0
  }

  /** Books balance through every possible history, and a plain limit order never sees a third fill. */
  lemma {:induction false} HistoryKeepsOrder(o: Order, es: seq<Event>, policy: Policy, floor: nat)
    requires OrderOk(o, floor) && o.status.Open? && o.fillCount == 0 && Possible(o, es, policy, floor)
    ensures var end := History(o, es);
            && OrderOk(end, floor)
            && end.fillCount == FillsIn(es)
            && end.kind == o.kind && end.reduceOnly == o.reduceOnly
            && (o.kind.Limit? && !o.reduceOnly ==> FillsIn(es) <= 2 && (FillsIn(es) == 2 ==> end.status.Filled?))
  {
    if es != [] {
      HistoryKeepsOrder(o, es[..|es| - 1], policy, floor);
      var before := History(o, es[..|es| - 1]);
      match es[|es| - 1] {
        case Fill(qty, price, feeUsd) =>
          RecordFillKeepsOrder(before, qty, price, feeUsd, policy, floor);
          TouchLeavesMoreThanOne(before, policy);
        case Edit(newQty) =>
          ResizeKeepsOrder(before, newQty, floor);
      }
    }
  }

  /** Average fill price times filled quantity: what the order says it traded. */
  function Paid(o: Order): int {
    OrZero(o.averageFillPrice) * o.filledQty
  }

  /** `x` is within half a unit of price, per unit filled and per fill, of zero. */
  predicate WithinSlack(x: int, fills: nat, filled: int) {
    -(fills * filled) <= 2 * x <= fills * filled
  }

  /** Average fill price times filled quantity is the sum of the fills' notionals, up to rounding. */
  lemma {:induction false} AverageIsVwap(o: Order, es: seq<Event>, policy: Policy)
    requires OrderOk(o, 0) && o.status.Open? && o.fillCount == 0 && o.filledQty == 0 && Possible(o, es, policy, 0)
    ensures var end := History(o, es);
            WithinSlack(Paid(end) - NotionalIn(es), FillsIn(es), end.filledQty)
  {
    if es != [] {
      var init := es[..|es| - 1];
      AverageIsVwap(o, init, policy);
      HistoryKeepsOrder(o, init, policy, 0);
      var before := History(o, init);
      match es[|es| - 1] {
        case Fill(qty, price, feeUsd) =>
          FillMovesAverage(before, qty, price, feeUsd, FillsIn(init), NotionalIn(init), policy);
        case Edit(newQty) =>
          ResizeMovesNothing(before, newQty);
      }
    }
  }

  lemma ResizeMovesNothing(o: Order, qty: int)
    requires OrderOk(o, 0) && o.status.Open? && ResizeAccepted(o, qty)
    ensures Paid(Resize(o, qty)) == Paid(o) && Resize(o, qty).filledQty == o.filledQty
  {
  }

  lemma FillMovesAverage(o: Order, qty: int, price: int, feeUsd: int, n: nat, notional: int, policy: Policy)
    requires OrderOk(o, 0) && o.status.Open? && 0 < qty <= TouchQty(o, policy)
    requires !o.reduceOnly ==> qty == TouchQty(o, policy)
    requires WithinSlack(Paid(o) - notional, n, o.filledQty)
    ensures var end := RecordFill(o, qty, price, feeUsd);
            WithinSlack(Paid(end) - (notional + qty * price), n + 1, end.filledQty)
  {
    RecordFillKeepsOrder(o, qty, price, feeUsd, policy, 0);
    var a := OrZero(o.averageFillPrice);
    assert RecordFill(o, qty, price, feeUsd).averageFillPrice
      == Some(Round(Blend(o.averageFillPrice, o.filledQty, price, qty)));
    AverageStep(a, o.filledQty, price, qty, n, notional);
  }

  lemma AverageStep(a: int, filled: int, price: int, qty: int, n: nat, notional: int)
    requires filled >= 0 && qty > 0 && WithinSlack(a * filled - notional, n, filled)
    ensures var total := filled + qty;
            var b := Round((a * filled + price * qty) as real / total as real);
            WithinSlack(b * total - (notional + qty * price), n + 1, total)
  {
    var total := filled + qty;
    var sum := a * filled + price * qty;
    var b := Round(sum as real / total as real);
    RoundedQuotient(sum, total);
    assert -total <= 2 * (sum - total * b) <= total;
    assert n * total == n * filled + n * qty && n * qty >= 0;
    assert (n + 1) * total == n * total + total;
    assert b * total - (notional + qty * price) == (a * filled - notional) - (sum - total * b);
  }
}
