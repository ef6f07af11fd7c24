/** Exactly when placing an order that the margin gate lets through leaves an account that passes the
    gate's own test, the order's listed remainder included. */
module PlacedGate {
  import opened Wrappers
  import opened FixedPoint
  import opened PaperTypes
  import opened Prices
  import opened Orders
  import opened Loading
  import opened Margin
  import opened Engine
  import opened Accounts
  import opened GateSoundness
  import opened GateExact
  import opened GateNumbers
  import Ledger

  /** The order made from a ticket, but for its number. */
  function Drafted(t: Ticket, market: int): Order {
    PlacedOrder(Bare(None, 0), t, market)
  }

  /** What its execution asks the gate for. */
  function PlacedAsk(t: Ticket, market: int, now: int, policy: Policy): Ask {
    var o := Drafted(t, market);
    Ask(t.symbol, TouchQty(o, policy), t.side, PlacedPrice(o, market, policy), o.kind.Limit? && o.trigger.None?,
        AttachOptional(o.takeProfit), AttachOptional(o.stopLoss), now)
  }

  /** A ticket that executes at once and would increase the exposure of the position held. */
  ghost predicate TicketOk(current: Option<Position>, t: Ticket, market: int, now: int, policy: Policy) {
    && t.qty > 0 && market > 0 && !t.reduceOnly && Immediate(Drafted(t, market), market)
    && AskOk(current, PlacedAsk(t, market, now, policy), policy)
  }

  /** The account after the fill is booked and the order listed, which placing it checks for liquidation
      at the market before it ends. */
  function PlacedAccount(s: State, t: Ticket, market: int, now: int, policy: Policy): State {
    var o := PlacedOrder(s, t, market);
    Executed(Numbered(s), o, PlacedFill(Numbered(s), o, market, now, policy), PlacedPrice(o, market, policy))
  }

  lemma PlaceChecks(s: State, t: Ticket, market: int, now: int, policy: Policy)
    requires Immediate(Drafted(t, market), market)
    ensures var r := Place(s, t, market, now, policy);
            r.Ok? ==>
              r.value == Liquidate(PlacedAccount(s, t, market, now, policy), map[t.symbol := market], now, policy).state
  {
  }

  /** It passes the gate's test at the gate's marks. */
  predicate PlacedPasses(s: State, t: Ticket, market: int, now: int, policy: Policy) {
    var r := PlacedAccount(s, t, market, now, policy);
    Passes(Valuation(r, GateMarks(r.positions, t.symbol, PlacedAsk(t, market, now, policy).price), policy))
  }

  /** Every well-formed account that holds the position, can pay the fee and places the order passes then. */
  ghost predicate PlaceHolds(current: Option<Position>, t: Ticket, market: int, now: int, policy: Policy) {
    forall s :: LoadedOk(s, 1) && Find(s.positions, t.symbol) == current && Place(s, t, market, now, policy).Ok?
                && s.balanceUsd >= Offer(current, PlacedAsk(t, market, now, policy), policy).feeUsd
                ==> PlacedPasses(s, t, market, now, policy)
  }

  /** So does one that cannot pay it. */
  ghost predicate PlaceHoldsAlways(current: Option<Position>, t: Ticket, market: int, now: int, policy: Policy) {
    forall s :: LoadedOk(s, 1) && Find(s.positions, t.symbol) == current && Place(s, t, market, now, policy).Ok?
                ==> PlacedPasses(s, t, market, now, policy)
  }

  /** What the order has left to fill: a remainder of one unit is given up. */
  function LeftToFill(t: Ticket, market: int, policy: Policy): int {
    var left := t.qty - TouchQty(Drafted(t, market), policy);
    if left > 1 then left else 0
  }

  function RemainderPledge(t: Ticket, market: int, policy: Policy): real {
    Pledge(LeftToFill(t, market, policy), Drafted(t, market).price, policy.initialMarginRatio)
  }

  /** The remainder pledges no more than the fill realizes. */
  predicate GainCoversRemainder(current: Option<Position>, t: Ticket, market: int, now: int, policy: Policy) {
    RemainderPledge(t, market, policy) <= Realized(current, PlacedAsk(t, market, now, policy)) as real
  }

  // ----- the row that is listed ---------------------------------------------------------------

  function ListedRow(o: Order, fill: FillResult, price: int): Order {
    var recorded := RecordFill(o, fill.filledQty, price, fill.feeUsd);
    Settle(if recorded.status.Open? then recorded else Restated(recorded, price))
  }

  lemma DraftedIs(s: State, t: Ticket, market: int)
    ensures PlacedOrder(s, t, market) == Drafted(t, market).(id := s.nextOrderSeq)
  {
  }

  lemma RowPledges(s: State, t: Ticket, market: int, fill: FillResult, price: int, policy: Policy)
    requires t.qty > 0 && market > 0 && !t.reduceOnly && price > 0 && fill.feeUsd >= 0
    requires fill.filledQty == TouchQty(Drafted(t, market), policy)
    ensures var row := ListedRow(PlacedOrder(s, t, market), fill, price);
            && OrderOk(row, 1)
            && OrderMarginOf(row, policy.initialMarginRatio) == RemainderPledge(t, market, policy)
  {
    Ledger.NewOrderOk(s, t, market);
    DraftedIs(s, t, market);
    RowOf(PlacedOrder(s, t, market), fill, price, policy);
  }

  /** The row of a new order's first fill: open with what is left, or finished and without a pledge. */
  lemma RowOf(o: Order, fill: FillResult, price: int, policy: Policy)
    requires OrderOk(o, 1) && o.status.Open? && !o.reduceOnly && price > 0 && fill.feeUsd >= 0
    requires fill.filledQty == TouchQty(o, policy)
    ensures var row := ListedRow(o, fill, price);
            var left := o.remainingQty - fill.filledQty;
            && OrderOk(row, 1)
            && OrderMarginOf(row, policy.initialMarginRatio)
               == Pledge(if left > 1 then left else 0, o.price, policy.initialMarginRatio)
  {
    var recorded := RecordFill(o, fill.filledQty, price, fill.feeUsd);
    TouchLeavesMoreThanOne(o, policy);
    RecordFillKeepsOrder(o, fill.filledQty, price, fill.feeUsd, policy, 1);
    RecordKeepsPrice(o, fill.filledQty, price, fill.feeUsd);
    RowOfRecorded(recorded, o.remainingQty - fill.filledQty, price, policy.initialMarginRatio);
  }

  lemma RowOfRecorded(o: Order, left: int, price: int, ratio: real)
    requires OrderOk(o, 1) && !o.reduceOnly && !o.status.Cancelled? && price > 0
    requires (o.status.Filled? <==> left <= 1) && (o.status.Open? ==> o.remainingQty == left)
    ensures var row := Settle(if o.status.Open? then o else Restated(o, price));
            OrderOk(row, 1) && OrderMarginOf(row, ratio) == Pledge(if left > 1 then left else 0, o.price, ratio)
  {
    if o.status.Open? {
      SettledAlready(o);
      OpenPledge(o, ratio);
    } else {
      Ledger.RestateKeeps(o, price, 1);
      FinishedRow(o, price, ratio);
    }
  }

  lemma SettledAlready(o: Order)
    requires OrderOk(o, 1) && o.status.Open?
    ensures Settle(o) == o
  {
  }

  lemma FinishedRow(o: Order, price: int, ratio: real)
    requires OrderOk(o, 1) && o.status.Filled? && OrderOk(Restated(o, price), 1)
    ensures var row := Settle(Restated(o, price));
            OrderOk(row, 1) && OrderMarginOf(row, ratio) == 0.0
  {
  }

  /** Placing asks the gate for that fill. */
  lemma PlacedAsks(s: State, t: Ticket, market: int, now: int, policy: Policy)
    requires Immediate(Drafted(t, market), market)
    ensures var a := PlacedAsk(t, market, now, policy);
            var o := PlacedOrder(s, t, market);
            && PlacedPrice(o, market, policy) == a.price
            && (!t.reduceOnly ==>
                  && PlacedFill(Numbered(s), o, market, now, policy) == GateExact.Filled(Numbered(s), a, policy)
                  && (Place(s, t, market, now, policy).Ok? <==> Accepted(Numbered(s), a, policy)))
  {
    DraftedIs(s, t, market);
  }

  lemma NumberedOk(s: State)
    requires LoadedOk(s, 1)
    ensures LoadedOk(Numbered(s), 1)
  {
  }

  /** What is let through is filled as offered. */
  lemma PlacedIsOffered(s: State, t: Ticket, market: int, now: int, policy: Policy)
    requires LoadedOk(s, 1) && TicketOk(Find(s.positions, t.symbol), t, market, now, policy)
    requires Place(s, t, market, now, policy).Ok?
    ensures var a := PlacedAsk(t, market, now, policy);
            PlacedFill(Numbered(s), PlacedOrder(s, t, market), market, now, policy)
            == Offer(Find(s.positions, t.symbol), a, policy)
  {
    PlacedAsks(s, t, market, now, policy);
    NumberedOk(s);
    AcceptedIsOffer(Numbered(s), PlacedAsk(t, market, now, policy), policy);
  }

  lemma PlacedIsLeft(s: State, t: Ticket, market: int, now: int, policy: Policy)
    ensures var o := PlacedOrder(s, t, market);
            var fill := PlacedFill(Numbered(s), o, market, now, policy);
            var price := PlacedPrice(o, market, policy);
            PlacedPasses(s, t, market, now, policy)
            == Passes(Left(Numbered(s), t.symbol, fill, price, Newest([ListedRow(o, fill, price)] + s.orders), policy))
  {
  }

  /** The account placing leaves passes by these numbers ... */
  lemma PlacedClears(s: State, t: Ticket, market: int, now: int, policy: Policy)
    requires LoadedOk(s, 1) && TicketOk(Find(s.positions, t.symbol), t, market, now, policy)
    requires Place(s, t, market, now, policy).Ok?
    ensures var a := PlacedAsk(t, market, now, policy);
            var offer := Offer(Find(s.positions, t.symbol), a, policy);
            var os := Newest([ListedRow(PlacedOrder(s, t, market), offer, a.price)] + s.orders);
            PlacedPasses(s, t, market, now, policy)
            <==> PassesAfter(s.balanceUsd, s.positions, OrderMargin(os, policy.initialMarginRatio), a, offer, policy)
  {
    var a := PlacedAsk(t, market, now, policy);
    var offer := Offer(Find(s.positions, t.symbol), a, policy);
    PlacedIsOffered(s, t, market, now, policy);
    PlacedAsks(s, t, market, now, policy);
    PlacedIsLeft(s, t, market, now, policy);
    var os := Newest([ListedRow(PlacedOrder(s, t, market), offer, a.price)] + s.orders);
    LeftClears(Numbered(s), a, offer, os, policy);
  }

  /** ... and the order is let through by those. */
  lemma PlaceOkWhenOpen(s: State, t: Ticket, market: int, now: int, policy: Policy)
    requires LoadedOk(s, 1) && TicketOk(Find(s.positions, t.symbol), t, market, now, policy)
    ensures var a := PlacedAsk(t, market, now, policy);
            var offer := Offer(Find(s.positions, t.symbol), a, policy);
            Place(s, t, market, now, policy).Ok?
            <==> OpensFor(s.balanceUsd, s.positions, OrderMargin(s.orders, policy.initialMarginRatio), a, offer, policy)
  {
    PlacedAsks(s, t, market, now, policy);
    NumberedOk(s);
    AcceptedWhenOpen(Numbered(s), PlacedAsk(t, market, now, policy), policy);
  }

  // ----- the theorem --------------------------------------------------------------------------

  lemma RemainderIsPledged(t: Ticket, market: int, policy: Policy)
    requires t.qty > 0 && market > 0 && MarginsOk(policy)
    ensures RemainderPledge(t, market, policy) >= 0.0 && Drafted(t, market).price > 0
    ensures LeftToFill(t, market, policy) > 0 <==> RemainderPledge(t, market, policy) > 0.0
  {
    Ledger.NewOrderOk(Bare(None, 0), t, market);
    PledgeSign(LeftToFill(t, market, policy), Drafted(t, market).price, policy.initialMarginRatio);
  }

  /** Listing the row adds its pledge, or less when an old row is dropped for it. */
  lemma ListingPledges(row: Order, os: seq<Order>, ratio: real)
    requires OrderOk(row, 1) && ratio >= 0.0 && forall o :: o in os ==> OrderOk(o, 1)
    ensures OrderMargin(Newest([row] + os), ratio) <= OrderMargin(os, ratio) + OrderMarginOf(row, ratio)
    ensures |os| < MAX_ORDERS ==>
              OrderMargin(Newest([row] + os), ratio) == OrderMargin(os, ratio) + OrderMarginOf(row, ratio)
  {
    assert ([row] + os)[1..] == os;
    if |os| >= MAX_ORDERS {
      PrefixPledgesLess([row] + os, MAX_ORDERS, ratio);
    }
  }

  /** The pledges after placing, and what they decide. */
  lemma PlacedPledges(s: State, t: Ticket, market: int, now: int, policy: Policy) returns (listed: real)
    requires LoadedOk(s, 1) && TicketOk(Find(s.positions, t.symbol), t, market, now, policy)
    requires Place(s, t, market, now, policy).Ok?
    ensures listed <= OrderMargin(s.orders, policy.initialMarginRatio) + RemainderPledge(t, market, policy)
    ensures |s.orders| < MAX_ORDERS ==>
              listed == OrderMargin(s.orders, policy.initialMarginRatio) + RemainderPledge(t, market, policy)
    ensures var a := PlacedAsk(t, market, now, policy);
            var offer := Offer(Find(s.positions, t.symbol), a, policy);
            PlacedPasses(s, t, market, now, policy)
            <==> PassesAfter(s.balanceUsd, s.positions, listed, a, offer, policy)
  {
    var a := PlacedAsk(t, market, now, policy);
    var offer := Offer(Find(s.positions, t.symbol), a, policy);
    var row := ListedRow(PlacedOrder(s, t, market), offer, a.price);
    listed := OrderMargin(Newest([row] + s.orders), policy.initialMarginRatio);
    OfferSound(Find(s.positions, t.symbol), a, policy);
    RowPledges(s, t, market, offer, a.price, policy);
    ListingPledges(row, s.orders, policy.initialMarginRatio);
    PlacedClears(s, t, market, now, policy);
  }

  lemma CoveredPasses(s: State, t: Ticket, market: int, now: int, policy: Policy)
    requires LoadedOk(s, 1) && TicketOk(Find(s.positions, t.symbol), t, market, now, policy)
    requires Place(s, t, market, now, policy).Ok?
    requires GainCoversRemainder(Find(s.positions, t.symbol), t, market, now, policy)
    requires s.balanceUsd >= Offer(Find(s.positions, t.symbol), PlacedAsk(t, market, now, policy), policy).feeUsd
    ensures PlacedPasses(s, t, market, now, policy)
  {
    var a := PlacedAsk(t, market, now, policy);
    OfferRealizes(Find(s.positions, t.symbol), a, policy);
    RemainderIsPledged(t, market, policy);
    PlaceOkWhenOpen(s, t, market, now, policy);
    var listed := PlacedPledges(s, t, market, now, policy);
    StillPasses(s.balanceUsd, s.positions, OrderMargin(s.orders, policy.initialMarginRatio), listed, a,
                Offer(Find(s.positions, t.symbol), a, policy), policy);
  }

  /** At most one order, which pledges that many times a remainder's margin. */
  lemma PledgingOrders(symbol: Symbol, times: nat, left: nat, price: nat, ratio: real) returns (os: seq<Order>)
    requires symbol != "" && left > 0 && price > 0
    ensures |os| <= 1 && IdsDescend(os, 1) && forall o :: o in os ==> OrderOk(o, 1) && o.symbol != ""
    ensures OrderMargin(os, ratio) == Times(times, Pledge(left, price, ratio))
  {
    if times > 0 {
      FillerPledges(0, symbol, times, left, price, ratio);
      os := [Filler(0, symbol, times * (left * price))];
      assert os[1..] == [];
    } else {
      os := [];
      NoTimes(Pledge(left, price, ratio));
    }
  }

  /** Funds that clear with no pledges, from a balance that is not negative. */
  lemma ClearFunds(profit: int, exposure: real, policy: Policy) returns (funds: int)
    ensures funds >= profit && Clears(funds, exposure, 0.0, policy)
  {
    PlentyPasses(profit, exposure, policy);
    PassesWhenClear(Plenty(profit, exposure, policy), profit, exposure, 0.0, policy);
    funds := Max(profit, Plenty(profit, exposure, policy) + profit);
  }

  /** Funds and pledges that clear for the last time before the gain and the pledge are added. */
  lemma EdgeNumbers(profit: int, exposure: real, gain: nat, pledge: real, policy: Policy) returns (funds: int, k: nat)
    requires pledge > gain as real
    ensures funds >= profit && Clears(funds, exposure, Times(k, pledge), policy)
    ensures !Clears(funds + gain, exposure, Times(k, pledge) + pledge, policy)
  {
    var start := ClearFunds(profit, exposure, policy);
    var n := Enough(start as real - MarginOn(exposure, policy.initialMarginRatio) + 1.5, pledge - gain as real);
    k := StepOut(start, exposure, 0.0, gain, pledge, policy, n);
    OneMore(k, pledge, gain);
    funds := start + k * gain;
  }

  /** An account that is let through with its pledges but not with the row's added. */
  lemma EdgeBreaks(current: Option<Position>, s: State, t: Ticket, market: int, now: int, pledged: real, more: real,
                   policy: Policy)
    requires TicketOk(current, t, market, now, policy) && LoadedOk(s, 1) && Find(s.positions, t.symbol) == current
    requires |s.orders| < MAX_ORDERS && OrderMargin(s.orders, policy.initialMarginRatio) == pledged
    requires more <= pledged + RemainderPledge(t, market, policy)
    requires var a := PlacedAsk(t, market, now, policy);
             && OpensFor(s.balanceUsd, s.positions, pledged, a, Offer(current, a, policy), policy)
             && !PassesAfter(s.balanceUsd, s.positions, more, a, Offer(current, a, policy), policy)
    ensures Place(s, t, market, now, policy).Ok? && !PlacedPasses(s, t, market, now, policy)
  {
    var a := PlacedAsk(t, market, now, policy);
    PlaceOkWhenOpen(s, t, market, now, policy);
    var listed := PlacedPledges(s, t, market, now, policy);
    if PassesAfter(s.balanceUsd, s.positions, listed, a, Offer(current, a, policy), policy) {
      FewerPledgesPass(s.balanceUsd, s.positions, listed, more, a, Offer(current, a, policy), policy);
    }
  }

  /** The balance and the orders of such an account. */
  lemma EdgeAccount(current: Option<Position>, a: Ask, offer: FillResult, left: nat, price: nat, pledge: real,
                    policy: Policy)
    returns (balance: int, os: seq<Order>)
    requires a.symbol != "" && 0 <= offer.realizedPnl && offer.realizedPnl as real < pledge && left > 0 && price > 0
    requires pledge == Pledge(left, price, policy.initialMarginRatio)
    ensures |os| <= 1 && IdsDescend(os, 1) && forall o :: o in os ==> OrderOk(o, 1) && o.symbol != ""
    ensures var pledged := OrderMargin(os, policy.initialMarginRatio);
            && balance >= offer.feeUsd && OpensFor(balance, AsList(current), pledged, a, offer, policy)
            && !PassesAfter(balance, AsList(current), pledged + pledge, a, offer, policy)
  {
    var k;
    balance, k := EdgeBalance(AsList(current), a, offer, pledge, policy);
    os := PledgingOrders(a.symbol, k, left, price, policy.initialMarginRatio);
  }

  lemma EdgeBalance(ps: seq<Position>, a: Ask, offer: FillResult, pledge: real, policy: Policy)
    returns (balance: int, k: nat)
    requires 0 <= offer.realizedPnl && offer.realizedPnl as real < pledge
    ensures balance >= offer.feeUsd && OpensFor(balance, ps, Times(k, pledge), a, offer, policy)
    ensures !PassesAfter(balance, ps, Times(k, pledge) + pledge, a, offer, policy)
  {
    var next := Replace(ps, a.symbol, offer.next);
    var profit := GateProfit(next, a.symbol, a.price);
    var funds;
    funds, k := EdgeNumbers(profit, GateExposure(next, a.symbol, a.price), offer.realizedPnl, pledge, policy);
    balance := funds - profit + offer.feeUsd;
    OnFunds(funds, balance, ps, Times(k, pledge), a, offer, policy);
    OnFunds(funds, balance, ps, Times(k, pledge) + pledge, a, offer, policy);
  }

  lemma HeldAlone(current: Option<Position>, symbol: Symbol, balance: int, os: seq<Order>)
    requires NextOk(symbol, current, 1)
    requires |os| <= 1 && IdsDescend(os, 1) && forall o :: o in os ==> OrderOk(o, 1) && o.symbol != ""
    ensures var s := Standing(AsList(current), balance, os, 1);
            LoadedOk(s, 1) && Find(s.positions, symbol) == current
  {
    ReplaceHeld(current, symbol, current);
    StandingOk(AsList(current), balance, os, 1);
  }

  lemma RemainderExceeds(current: Option<Position>, t: Ticket, market: int, now: int, policy: Policy)
    returns (left: nat, price: nat, pledge: real)
    requires TicketOk(current, t, market, now, policy) && !GainCoversRemainder(current, t, market, now, policy)
    requires Realized(current, PlacedAsk(t, market, now, policy)) >= 0
    ensures var offer := Offer(current, PlacedAsk(t, market, now, policy), policy);
            0 <= offer.realizedPnl && offer.realizedPnl as real < pledge
    ensures left > 0 && price > 0 && pledge == Pledge(left, price, policy.initialMarginRatio)
    ensures pledge == RemainderPledge(t, market, policy)
    ensures t.symbol != "" && NextOk(t.symbol, current, 1)
  {
    OfferRealizes(current, PlacedAsk(t, market, now, policy), policy);
    RemainderIsPledged(t, market, policy);
    left, price := LeftToFill(t, market, policy), Drafted(t, market).price;
    pledge := RemainderPledge(t, market, policy);
  }

  /** A remainder that pledges more than the fill realizes breaks the gate: on an account that is let
      through with just enough, the margin is short once the row is listed. */
  lemma RemainderBreaksGate(current: Option<Position>, t: Ticket, market: int, now: int, policy: Policy)
    returns (balance: int, os: seq<Order>)
    requires TicketOk(current, t, market, now, policy) && !GainCoversRemainder(current, t, market, now, policy)
    requires Realized(current, PlacedAsk(t, market, now, policy)) >= 0
    ensures |os| <= 1 && IdsDescend(os, 1) && forall o :: o in os ==> OrderOk(o, 1) && o.symbol != ""
    ensures balance >= Offer(current, PlacedAsk(t, market, now, policy), policy).feeUsd
    ensures var s := Standing(AsList(current), balance, os, 1);
            Place(s, t, market, now, policy).Ok? && !PlacedPasses(s, t, market, now, policy)
  {
    var a := PlacedAsk(t, market, now, policy);
    var left, price, pledge := RemainderExceeds(current, t, market, now, policy);
    balance, os := EdgeAccount(current, a, Offer(current, a, policy), left, price, pledge, policy);
    HeldAlone(current, t.symbol, balance, os);
    var pledged := OrderMargin(os, policy.initialMarginRatio);
    EdgeBreaks(current, Standing(AsList(current), balance, os, 1), t, market, now, pledged, pledged + pledge, policy);
  }

  /** So does a loss: the account of GateExact.FlipBreaksGate fails with the row listed too. */
  lemma LossBreaksGate(current: Option<Position>, t: Ticket, market: int, now: int, policy: Policy) returns (s: State)
    requires TicketOk(current, t, market, now, policy) && FlipsAtALoss(current, PlacedAsk(t, market, now, policy))
    ensures LoadedOk(s, 1) && Find(s.positions, t.symbol) == current && Place(s, t, market, now, policy).Ok?
    ensures s.balanceUsd >= Offer(current, PlacedAsk(t, market, now, policy), policy).feeUsd
    ensures !PlacedPasses(s, t, market, now, policy)
  {
    var a := PlacedAsk(t, market, now, policy);
    var balance := FlipBreaksGate(current, a, policy);
    s := Bare(current, balance);
    BareOk(current, balance, t.symbol);
    BareFailsListed(s, t, market, now, policy);
  }

  lemma BareFailsListed(s: State, t: Ticket, market: int, now: int, policy: Policy)
    requires LoadedOk(s, 1) && TicketOk(Find(s.positions, t.symbol), t, market, now, policy) && s.orders == []
    requires var a := PlacedAsk(t, market, now, policy);
             Accepted(s, a, policy) && !LeavesPassing(s, a, policy)
    ensures Place(s, t, market, now, policy).Ok? && !PlacedPasses(s, t, market, now, policy)
  {
    var a := PlacedAsk(t, market, now, policy);
    var offer := Offer(Find(s.positions, t.symbol), a, policy);
    AcceptedIsOffer(s, a, policy);
    AcceptedWhenOpen(s, a, policy);
    LeftClears(s, a, offer, s.orders, policy);
    RemainderIsPledged(t, market, policy);
    EdgeBreaks(Find(s.positions, t.symbol), s, t, market, now, 0.0, 0.0, policy);
  }

  /** Placing an order that increases exposure leaves every account that can pay its fee passing exactly
      when what the fill realizes covers what the listed remainder pledges. */
  lemma PlaceHoldsExactly(current: Option<Position>, t: Ticket, market: int, now: int, policy: Policy)
    requires TicketOk(current, t, market, now, policy)
    ensures PlaceHolds(current, t, market, now, policy) <==> GainCoversRemainder(current, t, market, now, policy)
  {
    var a := PlacedAsk(t, market, now, policy);
    if GainCoversRemainder(current, t, market, now, policy) {
      forall s | LoadedOk(s, 1) && Find(s.positions, t.symbol) == current && Place(s, t, market, now, policy).Ok?
                 && s.balanceUsd >= Offer(current, a, policy).feeUsd
        ensures PlacedPasses(s, t, market, now, policy)
      {
        CoveredPasses(s, t, market, now, policy);
      }
    } else if Realized(current, a) >= 0 {
      var balance, os := RemainderBreaksGate(current, t, market, now, policy);
      HeldAlone(current, t.symbol, balance, os);
    } else {
      LosesWhenFlipping(current, a, policy);
      var s := LossBreaksGate(current, t, market, now, policy);
    }
  }

  /** For an order that does not trade through the position: exactly when it fills at once. */
  lemma PlainPlaceHoldsExactly(current: Option<Position>, t: Ticket, market: int, now: int, policy: Policy)
    requires TicketOk(current, t, market, now, policy) && !TradesThrough(current, PlacedAsk(t, market, now, policy))
    ensures PlaceHolds(current, t, market, now, policy) <==> LeftToFill(t, market, policy) == 0
  {
    PlaceHoldsExactly(current, t, market, now, policy);
    RemainderIsPledged(t, market, policy);
  }

  /** For an order that fills at once: exactly when it does not flip the position at a loss, the condition
      of GateExact.GateHoldsExactly. */
  lemma FilledAtOnceHoldsExactly(current: Option<Position>, t: Ticket, market: int, now: int, policy: Policy)
    requires TicketOk(current, t, market, now, policy) && LeftToFill(t, market, policy) == 0
    ensures PlaceHolds(current, t, market, now, policy)
            <==> !FlipsAtALoss(current, PlacedAsk(t, market, now, policy))
  {
    PlaceHoldsExactly(current, t, market, now, policy);
    RemainderIsPledged(t, market, policy);
    LosesWhenFlipping(current, PlacedAsk(t, market, now, policy), policy);
  }

  /** Without asking that the fee can be paid: exactly when besides the gate refuses the fill on an
      empty balance. */
  lemma PlaceHoldsAlwaysExactly(current: Option<Position>, t: Ticket, market: int, now: int, policy: Policy)
    requires TicketOk(current, t, market, now, policy)
    ensures PlaceHoldsAlways(current, t, market, now, policy)
            <==> GainCoversRemainder(current, t, market, now, policy)
                 && !OpensOnNothing(current, PlacedAsk(t, market, now, policy), policy)
  {
    var a := PlacedAsk(t, market, now, policy);
    PlaceHoldsExactly(current, t, market, now, policy);
    if OpensOnNothing(current, a, policy) {
      var balance := DebtBreaksGate(current, a, policy);
      BareOk(current, balance, t.symbol);
      BareFailsListed(Bare(current, balance), t, market, now, policy);
    } else if GainCoversRemainder(current, t, market, now, policy) {
      forall s | LoadedOk(s, 1) && Find(s.positions, t.symbol) == current && Place(s, t, market, now, policy).Ok?
        ensures PlacedPasses(s, t, market, now, policy)
      {
        OnlyThePayingPlace(s, t, market, now, policy);
        CoveredPasses(s, t, market, now, policy);
      }
    }
  }

  lemma OnlyThePayingPlace(s: State, t: Ticket, market: int, now: int, policy: Policy)
    requires LoadedOk(s, 1) && TicketOk(Find(s.positions, t.symbol), t, market, now, policy)
    requires Place(s, t, market, now, policy).Ok?
    requires !OpensOnNothing(Find(s.positions, t.symbol), PlacedAsk(t, market, now, policy), policy)
    ensures s.balanceUsd >= Offer(Find(s.positions, t.symbol), PlacedAsk(t, market, now, policy), policy).feeUsd
  {
    PlacedAsks(s, t, market, now, policy);
    NumberedOk(s);
    if s.balanceUsd < Offer(Find(s.positions, t.symbol), PlacedAsk(t, market, now, policy), policy).feeUsd {
      BrokeIsRefused(Numbered(s), PlacedAsk(t, market, now, policy), policy);
    }
  }
}
