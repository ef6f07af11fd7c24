/** The perpetual paper engine as functions on the account: one step for each thing its loops do,
    the loops, and the calls of the API. */
module Engine {
  import opened Wrappers
  import opened FixedPoint
  import opened PaperTypes
  import opened Prices
  import opened Orders
  import opened Loading
  import opened Margin
  import Fills

  /** An attached exit price: not mentioned, or set (a price that is not positive clears it). */
  datatype Attached = Keep | Set(price: Option<int>)

  datatype FillResult = FillResult(filledQty: int, realizedPnl: int, feeUsd: int, next: Option<Position>)

  /** What a pass over the account has made of it, and whether it has to be saved. */
  datatype Progress = Progress(state: State, changed: bool)

  /** applyPaperBalanceDelta */
  function BalanceDelta(s: State, realized: int, feeUsd: int, funding: int, volume: real): State {
    s.(realizedPnlUsd := s.realizedPnlUsd + realized,
       feesPaidUsd := s.feesPaidUsd + feeUsd,
       fundingAccruedUsd := s.fundingAccruedUsd + funding,
       totalVolumeUsd := s.totalVolumeUsd + Max(0, Round(volume)),
       balanceUsd := s.balanceUsd + realized + funding - feeUsd)
  }

  function Attach(p: Position, takeProfit: Attached, stopLoss: Attached): Position {
    p.(takeProfit := if takeProfit.Set? then ToPositive(takeProfit.price) else p.takeProfit,
       stopLoss := if stopLoss.Set? then ToPositive(stopLoss.price) else p.stopLoss)
  }

  /** applyPaperOrderFillToState: the fill, its fee, and the margin gate. */
  function OrderFill(s: State, symbol: Symbol, qty: int, side: Side, reduceOnly: bool, price: int, maker: bool,
                     takeProfit: Attached, stopLoss: Attached, now: int, policy: Policy): FillResult
  {
    var current := Find(s.positions, symbol);
    var fill := Fills.ApplyFill(current, symbol, qty, side, reduceOnly, price, now);
    if fill.filledQty <= 0 then FillResult(0, 0, 0, fill.next)
    else
      var next := if fill.next.Some? && !reduceOnly then Some(Attach(fill.next.value, takeProfit, stopLoss))
                  else fill.next;
      var feeUsd := Fee(Value(fill.filledQty, price), maker, policy);
      if !reduceOnly && !GateOpens(s, symbol, next, price, feeUsd, policy) then FillResult(0, 0, 0, current)
      else FillResult(fill.filledQty, fill.realizedPnl, feeUsd, next)
  }

  /** An accepted fill: the money moves, then the position is replaced. */
  function Book(s: State, symbol: Symbol, fill: FillResult, price: int): State {
    var paid := BalanceDelta(s, fill.realizedPnl, fill.feeUsd, 0, Value(fill.filledQty, price));
    paid.(positions := Replace(paid.positions, symbol, fill.next))
  }

  /** pushPaperOrder */
  function Push(s: State, o: Order): State {
    s.(orders := Newest([Settle(o)] + s.orders))
  }

  /** The next order number is taken. */
  function Numbered(s: State): State {
    s.(nextOrderSeq := s.nextOrderSeq + 1)
  }

  // ----- funding ------------------------------------------------------------------------------

  function IntervalMs(policy: Policy): int {
    policy.fundingIntervalMinutes * 60 * 1000
  }

  /** The length of that many intervals. */
  function SpanMs(intervals: int, policy: Policy): int {
    intervals * IntervalMs(policy)
  }

  function Anchor(p: Position): int {
    if p.fundedAt.Some? then p.fundedAt.value else p.openedAt
  }

  /** Whole funding intervals since the position's anchor. */
  function IntervalsDue(p: Position, now: int, policy: Policy): int {
    if IntervalMs(policy) <= 0 || now <= Anchor(p) then 0 else (now - Anchor(p)) / IntervalMs(policy)
  }

  /** Funding of one interval, exact; a long pays it, a short receives it. */
  function FundingPerInterval(p: Position, mark: int, policy: Policy): real {
    var rate := policy.fundingRateBpsPerHour / 10000.0;
    var per := Value(p.qty, mark) * rate * (policy.fundingIntervalMinutes as real / 60.0);
    if p.direction.Long? then -per else per
  }

  /** Funding owed for the whole intervals due, exact. */
  function FundingDue(p: Position, mark: int, now: int, policy: Policy): real {
    FundingPerInterval(p, mark, policy) * IntervalsDue(p, now, policy) as real
  }

  /** The position with its anchor moved past the intervals due. */
  function Advanced(p: Position, now: int, policy: Policy): Position {
    if IntervalsDue(p, now, policy) <= 0 then p
    else p.(fundedAt := Some(Anchor(p) + SpanMs(IntervalsDue(p, now, policy), policy)))
  }

  /** One position of accruePaperFunding. */
  function AccrueAt(w: Progress, i: nat, marks: Marks, now: int, policy: Policy): (r: Progress)
    requires i < |w.state.positions|
    ensures |r.state.positions| == |w.state.positions|
  {
    var p := w.state.positions[i];
    var mark := MarkOf(marks, p);
    if mark <= 0 || IntervalsDue(p, now, policy) <= 0 then w
    else
      var funding := FundingDue(p, mark, now, policy);
      var paid := if funding != 0.0 then BalanceDelta(w.state, 0, 0, Round(funding), 0.0) else w.state;
      Progress(paid.(positions := paid.positions[i := Advanced(p, now, policy)]), w.changed || funding != 0.0)
  }

  function AccrueFrom(w: Progress, i: nat, marks: Marks, now: int, policy: Policy): Progress
    requires i <= |w.state.positions|
    decreases |w.state.positions| - i
  {
    if i == |w.state.positions| then w else AccrueFrom(AccrueAt(w, i, marks, now, policy), i + 1, marks, now, policy)
  }

  /** accruePaperFunding */
  function Accrue(s: State, marks: Marks, now: int, policy: Policy): Progress {
    if !policy.fundingFixedRate || policy.fundingRateBpsPerHour <= 0.0 then Progress(s, false)
    else AccrueFrom(Progress(s, false), 0, marks, now, policy)
  }

  // ----- resting orders -----------------------------------------------------------------------

  function RestingReason(o: Order): Reason {
    if o.trigger.None? then LimitTouch else if o.kind.Limit? then StopLimit else StopMarket
  }

  function RestingPrice(o: Order, market: int, policy: Policy): int {
    TriggeredPrice(o.side, o.kind, o.price, market, o.trigger, RestingReason(o), policy)
  }

  /** Whether a pass tries to fill the order at this mark. */
  predicate Touched(o: Order, marks: Marks, policy: Policy) {
    && o.status.Open? && o.symbol in marks && marks[o.symbol] != 0
    && StopTriggered(o, marks[o.symbol])
    && (o.kind.Limit? ==> Marketable(o.side, o.price, marks[o.symbol]))
    && TouchQty(o, policy) > 0
  }

  function RestingFill(s: State, o: Order, market: int, now: int, policy: Policy): FillResult {
    OrderFill(s, o.symbol, TouchQty(o, policy), o.side, o.reduceOnly, RestingPrice(o, market, policy),
              o.kind.Limit? && o.trigger.None?, Set(o.takeProfit), Set(o.stopLoss), now, policy)
  }

  /** One order of the first loop of reconcilePaperState. */
  function TouchAt(w: Progress, i: nat, marks: Marks, now: int, policy: Policy): (r: Progress)
    requires i < |w.state.orders|
    ensures |r.state.orders| == |w.state.orders|
  {
    var o := w.state.orders[i];
    if !Touched(o, marks, policy) then w
    else
      var price := RestingPrice(o, marks[o.symbol], policy);
      var fill := RestingFill(w.state, o, marks[o.symbol], now, policy);
      if fill.filledQty <= 0 then w
      else
        var booked := Book(w.state, o.symbol, fill, price);
        Progress(booked.(orders := booked.orders[i := RecordFill(o, fill.filledQty, price, fill.feeUsd)]), true)
  }

  function TouchFrom(w: Progress, i: nat, marks: Marks, now: int, policy: Policy): Progress
    requires i <= |w.state.orders|
    decreases |w.state.orders| - i
  {
    if i == |w.state.orders| then w else TouchFrom(TouchAt(w, i, marks, now, policy), i + 1, marks, now, policy)
  }

  // ----- take profit and stop loss ------------------------------------------------------------

  /** The exit price the mark has passed, take profit first. */
  function ExitTrigger(p: Position, mark: int): Option<int> {
    if p.direction.Long? then
      if p.takeProfit.Some? && mark >= p.takeProfit.value then p.takeProfit
      else if p.stopLoss.Some? && mark <= p.stopLoss.value then p.stopLoss
      else None
    else
      if p.takeProfit.Some? && mark <= p.takeProfit.value then p.takeProfit
      else if p.stopLoss.Some? && mark >= p.stopLoss.value then p.stopLoss
      else None
  }

  function ExitPrice(p: Position, mark: int, trigger: int, policy: Policy): int {
    TriggeredPrice(Opposite(p.direction), Market, trigger, mark, Some(trigger),
                   if p.stopLoss == Some(trigger) then StopLoss else TakeProfit, policy)
  }

  /** The closing of a whole position at a price. */
  function CloseFill(s: State, p: Position, price: int, maker: bool, now: int, policy: Policy): FillResult {
    OrderFill(s, p.symbol, p.qty, Opposite(p.direction), true, price, maker, Set(p.takeProfit), Set(p.stopLoss), now,
              policy)
  }

  /** A close that filled is booked and written down as a filled reduce-only market order. */
  function CloseBooked(s: State, p: Position, fill: FillResult, price: int, trigger: Option<int>): State {
    var booked := Book(s, p.symbol, fill, price);
    Push(Numbered(booked),
         FilledOrder(booked.nextOrderSeq, p.symbol, Opposite(p.direction), fill.filledQty, price, trigger,
                     p.takeProfit, p.stopLoss, fill.feeUsd))
  }

  /** One position of the second loop of reconcilePaperState. */
  function ExitAt(w: Progress, p: Position, marks: Marks, now: int, policy: Policy): Progress {
    if p.symbol !in marks || marks[p.symbol] == 0 || ExitTrigger(p, marks[p.symbol]).None? then w
    else
      var trigger := ExitTrigger(p, marks[p.symbol]).value;
      var price := ExitPrice(p, marks[p.symbol], trigger, policy);
      var fill := CloseFill(w.state, p, price, p.takeProfit == Some(trigger), now, policy);
      if fill.filledQty <= 0 then w
      else Progress(CloseBooked(w.state, p, fill, price, Some(trigger)), true)
  }

  function ExitAll(w: Progress, ps: seq<Position>, marks: Marks, now: int, policy: Policy): Progress
    decreases |ps|
  {
    if ps == [] then w else ExitAll(ExitAt(w, ps[0], marks, now, policy), ps[1..], marks, now, policy)
  }

  // ----- liquidation --------------------------------------------------------------------------

  /** One position of the loop of liquidatePaperPositionsIfNeeded. */
  function LiquidateAt(s: State, p: Position, marks: Marks, now: int, policy: Policy): State {
    if MarkOf(marks, p) <= 0 then s
    else
      var price := AggressivePrice(Opposite(p.direction), MarkOf(marks, p), policy.liquidationSlippageBps);
      var fill := CloseFill(s, p, price, false, now, policy);
      if fill.filledQty <= 0 then s else CloseBooked(s, p, fill, price, None)
  }

  function LiquidateAll(s: State, ps: seq<Position>, marks: Marks, now: int, policy: Policy): State
    decreases |ps|
  {
    if ps == [] then s else LiquidateAll(LiquidateAt(s, ps[0], marks, now, policy), ps[1..], marks, now, policy)
  }

  predicate MustLiquidate(s: State, marks: Marks, policy: Policy) {
    Valuation(s, marks, policy).status.Liquidation? && s.positions != []
  }

  /** liquidatePaperPositionsIfNeeded */
  function Liquidate(s: State, marks: Marks, now: int, policy: Policy): Progress {
    if !MustLiquidate(s, marks, policy) then Progress(s, false)
    else
      var closed := LiquidateAll(s, s.positions, marks, now, policy);
      Progress(closed.(liquidationCount := closed.liquidationCount + 1), true)
  }

  // ----- one pass -----------------------------------------------------------------------------

  /** Symbols with an open order or a position. */
  function Watched(s: State): set<Symbol> {
    (set o | o in s.orders && o.status.Open? :: o.symbol) + (set p | p in s.positions :: p.symbol)
  }

  /** The marks fetched for the watched symbols, as far as the feed has them. */
  function MarksFor(s: State, feed: Marks): Marks {
    map x | x in feed && x in Watched(s) :: feed[x]
  }

  /** reconcilePaperState from a state in memory. */
  function Reconcile(s: State, feed: Marks, now: int, policy: Policy): Progress {
    var marks := MarksFor(s, feed);
    if marks == map[] then Progress(s, false)
    else
      var funded := Accrue(s, marks, now, policy);
      var touched := TouchFrom(funded, 0, marks, now, policy);
      var exited := ExitAll(touched, touched.state.positions, marks, now, policy);
      var checked := Liquidate(exited.state, marks, now, policy);
      if exited.changed || checked.changed then Progress(Saved(checked.state), true) else Progress(checked.state, false)
  }

  // ----- calls --------------------------------------------------------------------------------

  datatype Error = SymbolRequired | InvalidQty | InvalidPrice | PriceUnavailable | ReduceOnlyRejected
                 | MarginInsufficient | OrderNotFound | QtyBelowFilled | PositionNotFound

  datatype Ticket = Ticket(symbol: Symbol, side: Side, kind: Kind, qty: int, price: Option<int>, trigger: Option<int>,
                           takeProfit: Option<int>, stopLoss: Option<int>, reduceOnly: bool)

  function PlacedOrder(s: State, t: Ticket, market: int): Order {
    NewOrder(s.nextOrderSeq, t.symbol, t.side, t.kind, t.qty,
             if t.kind.Limit? && Positive(t.price) && t.price.Some? then t.price.value else market,
             t.reduceOnly, ToPositive(t.trigger), t.takeProfit, t.stopLoss)
  }

  function PlacedReason(o: Order): Reason {
    if o.trigger.Some? then (if o.kind.Limit? then StopLimit else StopMarket)
    else if o.kind.Limit? then LimitTouch else MarketOrder
  }

  predicate Immediate(o: Order, market: int) {
    StopTriggered(o, market) && (o.kind.Limit? ==> Marketable(o.side, o.price, market))
  }

  function AttachOptional(price: Option<int>): Attached {
    if price.Some? then Set(price) else Keep
  }

  function PlacedPrice(o: Order, market: int, policy: Policy): int {
    TriggeredPrice(o.side, o.kind, o.price, market, o.trigger, PlacedReason(o), policy)
  }

  function PlacedFill(s: State, o: Order, market: int, now: int, policy: Policy): FillResult {
    OrderFill(s, o.symbol, TouchQty(o, policy), o.side, o.reduceOnly, PlacedPrice(o, market, policy),
              o.kind.Limit? && o.trigger.None?, AttachOptional(o.takeProfit), AttachOptional(o.stopLoss), now, policy)
  }

  /** The immediate fill of a new order, booked, recorded on the order, and the order listed. */
  function Executed(s: State, o: Order, fill: FillResult, price: int): State {
    var recorded := RecordFill(o, fill.filledQty, price, fill.feeUsd);
    Push(Book(s, o.symbol, fill, price), if recorded.status.Open? then recorded else Restated(recorded, price))
  }

  /** What placePaperOrder makes of the fill it computed: an error, or the executed order and a
      liquidation check at the market price. */
  function Finish(s: State, o: Order, fill: FillResult, price: int, market: int, now: int,
                  policy: Policy): Result<State, Error> {
    if fill.filledQty <= 0 then Err(if o.reduceOnly then ReduceOnlyRejected else MarginInsufficient)
    else Ok(Liquidate(Executed(s, o, fill, price), map[o.symbol := market], now, policy).state)
  }

  /** The part of placePaperOrder for an order that can execute at once. */
  function Execute(s: State, o: Order, market: int, now: int, policy: Policy): Result<State, Error> {
    var numbered := Numbered(s);
    Finish(numbered, o, PlacedFill(numbered, o, market, now, policy), PlacedPrice(o, market, policy), market, now,
           policy)
  }

  /** placePaperOrder from the reconciled state on. */
  function Place(s: State, t: Ticket, market: int, now: int, policy: Policy): Result<State, Error> {
    var o := PlacedOrder(s, t, market);
    if Immediate(o, market) then Execute(s, o, market, now, policy)
    else Ok(Push(Numbered(s), o))
  }

  /** Index of the open order with this id (and symbol, when given). */
  function FindOpen(os: seq<Order>, id: int, symbol: Option<Symbol>): (i: Option<nat>)
    ensures i.Some? ==> i.value < |os| && os[i.value].id == id && os[i.value].status.Open?
                        && (symbol.Some? ==> os[i.value].symbol == symbol.value)
    ensures i.None? ==>
              forall o :: o in os ==> !(o.id == id && o.status.Open? && (symbol.Some? ==> o.symbol == symbol.value))
  {
    if os == [] then None
    else if os[0].id == id && os[0].status.Open? && (symbol.Some? ==> os[0].symbol == symbol.value) then Some(0)
    else
      var rest := FindOpen(os[1..], id, symbol);
      if rest.Some? then Some(rest.value + 1) else None
  }

  datatype Change = Unchanged | To(value: Option<int>)

  datatype Edit = Edit(id: int, symbol: Option<Symbol>, price: Option<int>, qty: Option<int>,
                       trigger: Change, takeProfit: Change, stopLoss: Change)

  function Changed(before: Option<int>, c: Change): Option<int> {
    if c.To? then c.value else before
  }

  /** Why editPaperOrder would refuse to change the order. */
  function EditRefused(o: Order, e: Edit): Option<Error> {
    if e.price.Some? && e.price.value <= 0 then Some(InvalidPrice)
    else if e.qty.Some? && e.qty.value <= 0 then Some(InvalidQty)
    else if e.qty.Some? && !ResizeAccepted(o, e.qty.value) then Some(QtyBelowFilled)
    else None
  }

  /** The order an accepted edit leaves. */
  function EditApplied(o: Order, e: Edit): Order {
    var amended := o.(price := if e.price.Some? then e.price.value else o.price,
                       trigger := Changed(o.trigger, e.trigger),
                       takeProfit := Changed(o.takeProfit, e.takeProfit),
                       stopLoss := Changed(o.stopLoss, e.stopLoss));
    if e.qty.Some? then Resize(amended, e.qty.value) else Settle(amended)
  }

  function EditOrder(s: State, e: Edit): Result<State, Error> {
    var i := FindOpen(s.orders, e.id, e.symbol);
    if i.None? then Err(OrderNotFound)
    else
      var o := s.orders[i.value];
      if EditRefused(o, e).Some? then Err(EditRefused(o, e).value)
      else Ok(s.(orders := s.orders[i.value := EditApplied(o, e)]))
  }

  /** cancelPaperOrder: an order that is not open is left alone. */
  function CancelOrder(s: State, id: int, symbol: Option<Symbol>): State {
    var i := FindOpen(s.orders, id, symbol);
    if i.None? then s else s.(orders := s.orders[i.value := s.orders[i.value].(status := Cancelled)])
  }

  predicate OpenIn(o: Order, symbol: Option<Symbol>) {
    o.status.Open? && (symbol.Some? ==> o.symbol == symbol.value)
  }

  function CancelledIf(o: Order, symbol: Option<Symbol>): Order {
    if OpenIn(o, symbol) then o.(status := Cancelled) else o
  }

  function CancelMatching(os: seq<Order>, symbol: Option<Symbol>): (r: seq<Order>)
    ensures |r| == |os|
  {
    if os == [] then []
    else [CancelledIf(os[0], symbol)] + CancelMatching(os[1..], symbol)
  }

  function CancelAll(s: State, symbol: Option<Symbol>): State {
    s.(orders := CancelMatching(s.orders, symbol))
  }

  /** How many orders cancelAllPaperOrders cancels. */
  function Targets(os: seq<Order>, symbol: Option<Symbol>): nat {
    if os == [] then 0
    else Targets(os[..|os| - 1], symbol) + if OpenIn(os[|os| - 1], symbol) then 1 else 0
  }

  /** Index of the position of a symbol (and direction, when given). */
  function FindHeld(ps: seq<Position>, symbol: Symbol, direction: Option<Direction>): (i: Option<nat>)
    ensures i.Some? ==> i.value < |ps| && ps[i.value].symbol == symbol
  {
    if ps == [] then None
    else if ps[0].symbol == symbol && (direction.Some? ==> ps[0].direction == direction.value) then Some(0)
    else
      var rest := FindHeld(ps[1..], symbol, direction);
      if rest.Some? then Some(rest.value + 1) else None
  }

  /** setPaperPositionTpSl */
  function SetExits(s: State, symbol: Symbol, direction: Option<Direction>, takeProfit: Change,
                    stopLoss: Change): Result<State, Error> {
    var i := FindHeld(s.positions, symbol, direction);
    if i.None? then Err(PositionNotFound)
    else
      var p := s.positions[i.value];
      Ok(s.(positions := s.positions[i.value := p.(takeProfit := Changed(p.takeProfit, takeProfit),
                                                   stopLoss := Changed(p.stopLoss, stopLoss))]))
  }

  datatype Call =
    | List
    | PlaceCall(ticket: Ticket, market: Option<int>)
    | EditCall(edit: Edit)
    | CancelCall(id: int, symbol: Option<Symbol>)
    | CancelAllCall(symbol: Option<Symbol>)
    | SetExitsCall(held: Symbol, direction: Option<Direction>, takeProfit: Change, stopLoss: Change)

  /** What a call leaves in storage: nothing new, or a saved account. */
  datatype Written = Nothing | Account(state: State)

  function OrElse(r: Result<State, Error>, pass: Progress): Written {
    if r.Ok? then Account(Saved(r.value)) else if pass.changed then Account(pass.state) else Nothing
  }

  // what each call makes of the reconciled account; one that fails leaves what reconciling saved

  function Listed(pass: Progress): Written {
    if pass.changed then Account(pass.state) else Nothing
  }

  function Placed(pass: Progress, t: Ticket, market: Option<int>, now: int, policy: Policy): Written {
    if t.symbol == "" || t.qty <= 0 then Nothing
    else if market.None? then Listed(pass)
    else OrElse(Place(pass.state, t, market.value, now, policy), pass)
  }

  function Edited(pass: Progress, e: Edit): Written {
    OrElse(EditOrder(pass.state, e), pass)
  }

  function CancelledOne(pass: Progress, id: int, symbol: Option<Symbol>): Written {
    if FindOpen(pass.state.orders, id, symbol).Some? then Account(Saved(CancelOrder(pass.state, id, symbol)))
    else Listed(pass)
  }

  function CancelledAll(pass: Progress, symbol: Option<Symbol>): Written {
    if Targets(pass.state.orders, symbol) > 0
    then Account(Saved(CancelAll(pass.state, symbol)))
    else Listed(pass)
  }

  function ExitsSet(pass: Progress, symbol: Symbol, direction: Option<Direction>, takeProfit: Change,
                    stopLoss: Change): Written {
    if symbol == "" then Nothing else OrElse(SetExits(pass.state, symbol, direction, takeProfit, stopLoss), pass)
  }

  /** Every call first loads the account and reconciles it with what the feed knows. */
  function Loaded(stored: State, feed: Marks, now: int, policy: Policy): Progress {
    Reconcile(Coerce(stored), feed, now, policy)
  }

  /** One API call: load, reconcile, act, save. */
  function Perform(stored: State, call: Call, feed: Marks, now: int, policy: Policy): Written {
    var pass := Loaded(stored, feed, now, policy);
    match call
    case List => Listed(pass)
    case PlaceCall(t, market) => Placed(pass, t, market, now, policy)
    case EditCall(e) => Edited(pass, e)
    case CancelCall(id, symbol) => CancelledOne(pass, id, symbol)
    case CancelAllCall(symbol) => CancelledAll(pass, symbol)
    case SetExitsCall(symbol, direction, takeProfit, stopLoss) =>
      ExitsSet(pass, symbol, direction, takeProfit, stopLoss)
  }

  /** What is stored after a call. */
  function After(stored: State, w: Written): State {
    if w.Account? then w.state else stored
  }

  /** The error placing an order answers with, if any. */
  function PlaceError(s: State, t: Ticket, market: Option<int>, now: int, policy: Policy): Option<Error> {
    if t.symbol == "" then Some(SymbolRequired)
    else if t.qty <= 0 then Some(InvalidQty)
    else if market.None? then Some(PriceUnavailable)
    else ErrorOf(Place(s, t, market.value, now, policy))
  }

  /** The error setting exits answers with, if any. */
  function ExitsError(s: State, symbol: Symbol, direction: Option<Direction>, takeProfit: Change,
                      stopLoss: Change): Option<Error> {
    if symbol == "" then Some(SymbolRequired) else ErrorOf(SetExits(s, symbol, direction, takeProfit, stopLoss))
  }

  function ErrorOf(r: Result<State, Error>): Option<Error> {
    if r.Err? then Some(r.error) else None
  }
}
