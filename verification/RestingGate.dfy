/** Exactly when a resting order's turn that the margin gate lets through leaves an account that passes
    the gate's own test. */
module RestingGate {
  import opened Wrappers
  import opened FixedPoint
  import opened PaperTypes
  import opened Prices
  import opened Orders
  import opened Loading
  import opened Margin
  import opened Engine
  import opened Accounts
  import opened GateSoundness
  import opened GateExact
  import opened GateNumbers
  import Fills

  /** What a turn of the order asks the gate for. */
  function TurnAsk(o: Order, market: int, now: int, policy: Policy): Ask {
    Ask(o.symbol, TouchQty(o, policy), o.side, RestingPrice(o, market, policy), o.kind.Limit? && o.trigger.None?,
        Set(o.takeProfit), Set(o.stopLoss), now)
  }

  ghost predicate HeldOk(ps: seq<Position>) {
    UniqueSymbols(ps) && forall p :: p in ps ==> PositionOk(p, 1) && ExitsPositive(p)
  }

  /** A touched order that would increase the exposure of the position of its symbol. */
  ghost predicate TurnOk(ps: seq<Position>, o: Order, marks: Marks, now: int, policy: Policy) {
    && HeldOk(ps) && OrderOk(o, 1) && !o.reduceOnly && Touched(o, marks, policy)
    && AskOk(Find(ps, o.symbol), TurnAsk(o, marks[o.symbol], now, policy), policy)
  }

  /** The order's turn fills it. */
  predicate TurnFills(s: State, i: nat, marks: Marks, now: int, policy: Policy)
    requires i < |s.orders| && s.orders[i].symbol in marks
  {
    RestingFill(s, s.orders[i], marks[s.orders[i].symbol], now, policy).filledQty > 0
  }

  /** The account after the turn passes the gate's test at the gate's marks. */
  predicate TurnPasses(s: State, i: nat, marks: Marks, now: int, policy: Policy)
    requires i < |s.orders| && s.orders[i].symbol in marks
  {
    var o := s.orders[i];
    var r := TouchAt(Progress(s, false), i, marks, now, policy).state;
    Passes(Valuation(r, GateMarks(r.positions, o.symbol, RestingPrice(o, marks[o.symbol], policy)), policy))
  }

  function TurnOffer(ps: seq<Position>, o: Order, market: int, now: int, policy: Policy): FillResult {
    Offer(Find(ps, o.symbol), TurnAsk(o, market, now, policy), policy)
  }

  /** Every well-formed account with these positions and this order among its orders, that can pay the fee
      and whose turn fills it, passes then. */
  ghost predicate TurnHolds(ps: seq<Position>, o: Order, marks: Marks, now: int, policy: Policy)
    requires o.symbol in marks
  {
    forall s: State, i: nat ::
      i < |s.orders| && s.orders[i] == o && s.positions == ps && LoadedOk(s, 1) && TurnFills(s, i, marks, now, policy)
      && s.balanceUsd >= TurnOffer(ps, o, marks[o.symbol], now, policy).feeUsd
      ==> TurnPasses(s, i, marks, now, policy)
  }

  // ----- what the turn releases ---------------------------------------------------------------

  /** What the order has left after the turn: a remainder of one unit is given up. */
  function LeftAfter(o: Order, policy: Policy): int {
    var left := o.remainingQty - TouchQty(o, policy);
    if left > 1 then left else 0
  }

  function Pledged(o: Order, policy: Policy): real {
    Pledge(o.remainingQty, o.price, policy.initialMarginRatio)
  }

  function Released(o: Order, policy: Policy): real {
    Pledge(o.remainingQty - LeftAfter(o, policy), o.price, policy.initialMarginRatio)
  }

  lemma PledgeSplits(all: int, left: int, price: int, ratio: real)
    ensures Pledge(all - left, price, ratio) == Pledge(all, price, ratio) - Pledge(left, price, ratio)
  {
    ValueAdds(all - left, left, price);
    Distributes(Value(all - left, price), Value(left, price), ratio);
  }

  lemma Distributes(x: real, y: real, z: real)
    ensures (x + y) * z == x * z + y * z
  {
  }

  lemma TurnReleases(o: Order, price: int, feeUsd: int, policy: Policy)
    requires OrderOk(o, 1) && o.status.Open? && !o.reduceOnly && price > 0 && feeUsd >= 0
    ensures var recorded := RecordFill(o, TouchQty(o, policy), price, feeUsd);
            OrderMarginOf(o, policy.initialMarginRatio) == Pledged(o, policy)
            && OrderMarginOf(recorded, policy.initialMarginRatio) == Pledged(o, policy) - Released(o, policy)
  {
    var recorded := RecordFill(o, TouchQty(o, policy), price, feeUsd);
    TouchLeavesMoreThanOne(o, policy);
    RecordFillKeepsOrder(o, TouchQty(o, policy), price, feeUsd, policy, 1);
    RecordKeepsPrice(o, TouchQty(o, policy), price, feeUsd);
    OpenPledge(o, policy.initialMarginRatio);
    PledgeSplits(o.remainingQty, LeftAfter(o, policy), o.price, policy.initialMarginRatio);
    PledgeRecorded(recorded, o.remainingQty - TouchQty(o, policy), policy.initialMarginRatio);
  }

  lemma PledgeRecorded(o: Order, left: int, ratio: real)
    requires OrderOk(o, 1) && !o.reduceOnly && !o.status.Cancelled?
    requires (o.status.Filled? <==> left <= 1) && (o.status.Open? ==> o.remainingQty == left)
    ensures OrderMarginOf(o, ratio) == Pledge(if left > 1 then left else 0, o.price, ratio)
  {
    if o.status.Open? {
      OpenPledge(o, ratio);
    }
  }

  lemma ReleaseSigns(o: Order, policy: Policy)
    requires OrderOk(o, 1) && o.status.Open? && MarginsOk(policy)
    ensures 0.0 < Released(o, policy) <= Pledged(o, policy)
    ensures o.remainingQty - LeftAfter(o, policy) > 0 && o.price > 0
  {
    TouchLeavesMoreThanOne(o, policy);
    PledgeSign(o.remainingQty - LeftAfter(o, policy), o.price, policy.initialMarginRatio);
    PledgeSign(LeftAfter(o, policy), o.price, policy.initialMarginRatio);
    PledgeSplits(o.remainingQty, LeftAfter(o, policy), o.price, policy.initialMarginRatio);
  }

  // ----- the turn in numbers ------------------------------------------------------------------

  /** The turn fills exactly when the gate opens for the offer. */
  lemma TurnFillsWhenOpen(s: State, i: nat, marks: Marks, now: int, policy: Policy)
    requires i < |s.orders| && LoadedOk(s, 1) && TurnOk(s.positions, s.orders[i], marks, now, policy)
    ensures var a := TurnAsk(s.orders[i], marks[s.orders[i].symbol], now, policy);
            var offer := Offer(Find(s.positions, a.symbol), a, policy);
            TurnFills(s, i, marks, now, policy)
            <==> OpensFor(s.balanceUsd, s.positions, OrderMargin(s.orders, policy.initialMarginRatio), a, offer, policy)
  {
    AcceptedWhenOpen(s, TurnAsk(s.orders[i], marks[s.orders[i].symbol], now, policy), policy);
  }

  lemma TurnIsOffered(s: State, i: nat, marks: Marks, now: int, policy: Policy)
    requires i < |s.orders| && LoadedOk(s, 1) && TurnOk(s.positions, s.orders[i], marks, now, policy)
    requires TurnFills(s, i, marks, now, policy)
    ensures var o := s.orders[i];
            RestingFill(s, o, marks[o.symbol], now, policy)
            == TurnOffer(s.positions, o, marks[o.symbol], now, policy)
  {
    AcceptedIsOffer(s, TurnAsk(s.orders[i], marks[s.orders[i].symbol], now, policy), policy);
  }

  lemma TurnIsLeft(s: State, i: nat, marks: Marks, now: int, policy: Policy, fill: FillResult)
    requires i < |s.orders| && Touched(s.orders[i], marks, policy) && fill.filledQty > 0
    requires RestingFill(s, s.orders[i], marks[s.orders[i].symbol], now, policy) == fill
    ensures var o := s.orders[i];
            var price := RestingPrice(o, marks[o.symbol], policy);
            var recorded := RecordFill(o, fill.filledQty, price, fill.feeUsd);
            TurnPasses(s, i, marks, now, policy)
            == Passes(Left(s, o.symbol, fill, price, s.orders[i := recorded], policy))
  {
    TouchLeaves(Progress(s, false), i, marks, now, policy);
  }

  /** The row with the fill recorded. */
  function TurnRow(o: Order, price: int, feeUsd: int, policy: Policy): Order {
    RecordFill(o, TouchQty(o, policy), price, feeUsd)
  }

  lemma TurnPledges(os: seq<Order>, i: nat, price: int, feeUsd: int, policy: Policy)
    requires i < |os| && OrderOk(os[i], 1) && os[i].status.Open? && !os[i].reduceOnly && price > 0 && feeUsd >= 0
    ensures OrderMargin(os[i := TurnRow(os[i], price, feeUsd, policy)], policy.initialMarginRatio)
         == OrderMargin(os, policy.initialMarginRatio) - Released(os[i], policy)
  {
    TurnReleases(os[i], price, feeUsd, policy);
    OrderMarginUpdate(os, i, TurnRow(os[i], price, feeUsd, policy), policy.initialMarginRatio);
  }

  /** Then the account passes by these numbers: the loss is booked and the pledge released. */
  lemma TurnClears(s: State, i: nat, marks: Marks, now: int, policy: Policy) returns (left: real)
    requires i < |s.orders| && LoadedOk(s, 1) && TurnOk(s.positions, s.orders[i], marks, now, policy)
    requires TurnFills(s, i, marks, now, policy)
    ensures left == OrderMargin(s.orders, policy.initialMarginRatio) - Released(s.orders[i], policy)
    ensures var a := TurnAsk(s.orders[i], marks[s.orders[i].symbol], now, policy);
            var offer := Offer(Find(s.positions, a.symbol), a, policy);
            TurnPasses(s, i, marks, now, policy)
            <==> PassesAfter(s.balanceUsd, s.positions, left, a, offer, policy)
  {
    var o := s.orders[i];
    var a := TurnAsk(o, marks[o.symbol], now, policy);
    var offer := Offer(Find(s.positions, a.symbol), a, policy);
    var os := s.orders[i := TurnRow(o, a.price, offer.feeUsd, policy)];
    left := OrderMargin(os, policy.initialMarginRatio);
    OfferSound(Find(s.positions, a.symbol), a, policy);
    TurnIsOffered(s, i, marks, now, policy);
    TurnIsLeft(s, i, marks, now, policy, offer);
    TurnPledges(s.orders, i, a.price, offer.feeUsd, policy);
    LeftClears(s, a, offer, os, policy);
  }

  // ----- the positions after a flip -----------------------------------------------------------

  /** What positions cost, exact. */
  function Notional(ps: seq<Position>): real {
    if ps == [] then 0.0 else Value(ps[0].qty, ps[0].entryPrice) + Notional(ps[1..])
  }

  /** The exposure after trading through a position: the others at their cost, and what opens the other way. */
  function FlippedExposure(ps: seq<Position>, a: Ask): real {
    var held := Find(ps, a.symbol);
    Notional(Without(ps, a.symbol)) + Value(a.qty - if held.Some? then held.value.qty else 0, a.price)
  }

  lemma {:induction false} EntryNotional(ps: seq<Position>, marks: Marks)
    requires forall p :: p in ps ==> p.symbol in marks && marks[p.symbol] == p.entryPrice && PositionOk(p, 1)
    ensures Exposure(ps, marks) == Notional(ps) && Notional(ps) >= 0.0
  {
    if ps != [] {
      assert ps[0] in ps;
      EntryNotional(ps[1..], marks);
      ValueNonNegative(ps[0].qty, ps[0].entryPrice);
    }
  }

  lemma FlippedIs(current: Option<Position>, a: Ask, policy: Policy)
    requires AskOk(current, a, policy) && TradesThrough(current, a)
    ensures var next := Offer(current, a, policy).next;
            && next.Some? && NextOk(a.symbol, next, 1) && next.value.entryPrice == a.price
            && next.value.qty == a.qty - current.value.qty
  {
    OfferSound(current, a, policy);
    FlipStartsAtPrice(current, a, policy);
    Fills.FillKeepsHeld(current, a.symbol, a.qty, a.side, false, a.price, a.now);
  }

  /** At the gate's marks a flip shows no profit and that exposure. */
  lemma FlipSums(ps: seq<Position>, a: Ask, policy: Policy)
    requires HeldOk(ps) && AskOk(Find(ps, a.symbol), a, policy) && TradesThrough(Find(ps, a.symbol), a)
    ensures var all := Replace(ps, a.symbol, Offer(Find(ps, a.symbol), a, policy).next);
            && GateProfit(all, a.symbol, a.price) == 0
            && GateExposure(all, a.symbol, a.price) == FlippedExposure(ps, a)
    ensures FlippedExposure(ps, a) >= 0.0
  {
    var next := Offer(Find(ps, a.symbol), a, policy).next;
    FlippedIs(Find(ps, a.symbol), a, policy);
    ReplacedSums(ps, a.symbol, next, a.price);
  }

  lemma ReplacedSums(ps: seq<Position>, symbol: Symbol, next: Option<Position>, price: int)
    requires HeldOk(ps) && NextOk(symbol, next, 1) && next.Some? && next.value.entryPrice == price
    ensures var all := Replace(ps, symbol, next);
            && GateProfit(all, symbol, price) == 0
            && GateExposure(all, symbol, price) == Notional(Without(ps, symbol)) + Value(next.value.qty, price) >= 0.0
  {
    var all := Replace(ps, symbol, next);
    var marks := GateMarks(all, symbol, price);
    ReplaceIsUpdate(ps, symbol, next);
    GateMarksAre(all, symbol, price);
    assert forall p :: p in all ==> p in Without(ps, symbol) || p == next.value;
    EntryMarked(all, marks);
    EntryNotional(all, marks);
    NotionalConcat(Without(ps, symbol), AsList(next));
    assert AsList(next)[1..] == [];
  }

  lemma {:induction false} NotionalConcat(a: seq<Position>, b: seq<Position>)
    ensures Notional(a + b) == Notional(a) + Notional(b)
  {
    if a == [] {
      assert a + b == b;
    } else {
      assert (a + b)[1..] == a[1..] + b;
      NotionalConcat(a[1..], b);
    }
  }

  // ----- the condition ------------------------------------------------------------------------

  /** The released pledge covers the loss, and no balance that the gate opens for is brought down to the
      maintenance margin by it. */
  predicate Covers(o: Order, loss: int, exposure: real, policy: Policy) {
    && loss as real <= Released(o, policy)
    && MarginOn(exposure, policy.initialMarginRatio) + Pledged(o, policy)
       >= (MarginOn(exposure, policy.maintenanceMarginRatio).Floor + loss) as real + 2.5
  }

  /** The order does not flip the position at a loss, or its pledge covers the loss. */
  predicate TurnSafe(ps: seq<Position>, o: Order, market: int, now: int, policy: Policy) {
    var a := TurnAsk(o, market, now, policy);
    var current := Find(ps, o.symbol);
    FlipsAtALoss(current, a) ==> Covers(o, -Realized(current, a), FlippedExposure(ps, a), policy)
  }

  /** With a loss covered, what clears the gate clears it afterwards. */
  lemma CoveredClears(funds: int, exposure: real, pledged: real, o: Order, loss: nat, policy: Policy)
    requires Clears(funds, exposure, pledged, policy) && pledged >= Pledged(o, policy)
    requires Covers(o, loss, exposure, policy)
    ensures Clears(funds - loss, exposure, pledged - Released(o, policy), policy)
  {
    AtMostFloor(funds - loss, MarginOn(exposure, policy.maintenanceMarginRatio));
  }

  lemma AtMostFloor(n: int, x: real)
    ensures n as real <= x + 1.0 ==> n <= x.Floor + 1
  {
  }

  /** With a loss that is not, some funds clear it and no longer do afterwards, beside so many times the
      released pledge. */
  lemma UncoveredFails(exposure: real, o: Order, loss: nat, policy: Policy) returns (funds: int, k: nat)
    requires exposure >= 0.0 && loss > 0 && !Covers(o, loss, exposure, policy) && MarginsOk(policy)
    requires 0.0 < Released(o, policy) <= Pledged(o, policy)
    ensures funds >= 0 && Clears(funds, exposure, Pledged(o, policy) + Times(k, Released(o, policy)), policy)
    ensures !Clears(funds - loss, exposure, Pledged(o, policy) + Times(k, Released(o, policy)) - Released(o, policy),
                    policy)
  {
    Product(exposure, policy.maintenanceMarginRatio);
    if loss as real <= Released(o, policy) {
      k := 0;
      funds := MarginOn(exposure, policy.maintenanceMarginRatio).Floor + 1 + loss;
    } else {
      funds, k := ShortRelease(exposure, Pledged(o, policy), Released(o, policy), loss, policy);
    }
  }

  lemma ShortRelease(exposure: real, pledged: real, released: real, loss: nat, policy: Policy)
    returns (funds: int, k: nat)
    requires MarginOn(exposure, policy.maintenanceMarginRatio) >= 0.0 && 0.0 < released < loss as real
    ensures funds >= 0 && Clears(funds, exposure, pledged + Times(k, released), policy)
    ensures !Clears(funds - loss, exposure, pledged + Times(k, released) - released, policy)
  {
    var initial := MarginOn(exposure, policy.initialMarginRatio) + pledged;
    var maintenance := MarginOn(exposure, policy.maintenanceMarginRatio) + 1.0;
    var n := Enough(if initial > maintenance then initial else maintenance, loss as real - released);
    k := StepIn(0, exposure, pledged, loss, released, policy, n);
    OneMore(k - 1, released, loss);
    funds := k * loss;
    assert funds >= 0;
  }

  // ----- the theorem --------------------------------------------------------------------------

  /** The order, last of at most two, the other pledging so many times what its turn releases. */
  lemma TurnOrders(o: Order, k: nat, policy: Policy) returns (os: seq<Order>)
    requires OrderOk(o, 1) && o.status.Open? && !o.reduceOnly && o.symbol != "" && MarginsOk(policy)
    ensures 1 <= |os| <= 2 && os[|os| - 1] == o && IdsDescend(os, Max(1, o.id + 2))
    ensures forall x :: x in os ==> OrderOk(x, 1) && x.symbol != ""
    ensures OrderMargin(os, policy.initialMarginRatio) == Pledged(o, policy) + Times(k, Released(o, policy))
  {
    var ratio := policy.initialMarginRatio;
    ReleaseSigns(o, policy);
    OpenPledge(o, ratio);
    assert [o][1..] == [] && OrderMargin([o], ratio) == Pledged(o, policy);
    if k > 0 {
      var released := o.remainingQty - LeftAfter(o, policy);
      FillerPledges(o.id + 1, o.symbol, k, released, o.price, ratio);
      os := [Filler(o.id + 1, o.symbol, k * (released * o.price)), o];
      assert os[1..] == [o];
      assert OrderMargin(os, ratio) == OrderMarginOf(os[0], ratio) + OrderMargin([o], ratio);
    } else {
      NoTimes(Released(o, policy));
      os := [o];
    }
  }

  lemma SafeTurnPasses(s: State, i: nat, marks: Marks, now: int, policy: Policy)
    requires i < |s.orders| && LoadedOk(s, 1) && TurnOk(s.positions, s.orders[i], marks, now, policy)
    requires TurnFills(s, i, marks, now, policy)
    requires TurnSafe(s.positions, s.orders[i], marks[s.orders[i].symbol], now, policy)
    requires s.balanceUsd >= TurnOffer(s.positions, s.orders[i], marks[s.orders[i].symbol], now, policy).feeUsd
    ensures TurnPasses(s, i, marks, now, policy)
  {
    var o := s.orders[i];
    var a := TurnAsk(o, marks[o.symbol], now, policy);
    var current := Find(s.positions, o.symbol);
    var offer := Offer(current, a, policy);
    var pledged := OrderMargin(s.orders, policy.initialMarginRatio);
    OfferRealizes(current, a, policy);
    LosesWhenFlipping(current, a, policy);
    ReleaseSigns(o, policy);
    TurnFillsWhenOpen(s, i, marks, now, policy);
    var left := TurnClears(s, i, marks, now, policy);
    if FlipsAtALoss(current, a) {
      PledgesAtLeast(s.orders, i, policy.initialMarginRatio);
      OpenPledge(o, policy.initialMarginRatio);
      FlipSums(s.positions, a, policy);
      FlipPasses(s.balanceUsd, s.positions, pledged, left, o, a, offer, policy);
    } else {
      StillPasses(s.balanceUsd, s.positions, pledged, left, a, offer, policy);
    }
  }

  lemma FlipPasses(balance: int, ps: seq<Position>, pledged: real, left: real, o: Order, a: Ask, offer: FillResult,
                   policy: Policy)
    requires OpensFor(balance, ps, pledged, a, offer, policy) && balance >= offer.feeUsd && offer.realizedPnl < 0
    requires pledged >= Pledged(o, policy) && left == pledged - Released(o, policy)
    requires var next := Replace(ps, a.symbol, offer.next);
             Covers(o, -offer.realizedPnl, GateExposure(next, a.symbol, a.price), policy)
    ensures PassesAfter(balance, ps, left, a, offer, policy)
  {
    var next := Replace(ps, a.symbol, offer.next);
    var funds := balance - offer.feeUsd + GateProfit(next, a.symbol, a.price);
    OnFunds(funds, balance, ps, pledged, a, offer, policy);
    OnFunds(funds, balance, ps, left, a, offer, policy);
    CoveredClears(funds, GateExposure(next, a.symbol, a.price), pledged, o, -offer.realizedPnl, policy);
  }

  /** An account that breaks the gate when the pledge does not cover the loss. */
  lemma UnsafeTurnFails(ps: seq<Position>, o: Order, marks: Marks, now: int, policy: Policy) returns (s: State, i: nat)
    requires TurnOk(ps, o, marks, now, policy) && !TurnSafe(ps, o, marks[o.symbol], now, policy)
    ensures i < |s.orders| && s.orders[i] == o && s.positions == ps && LoadedOk(s, 1)
    ensures s.balanceUsd >= TurnOffer(ps, o, marks[o.symbol], now, policy).feeUsd
    ensures TurnFills(s, i, marks, now, policy) && !TurnPasses(s, i, marks, now, policy)
  {
    var a := TurnAsk(o, marks[o.symbol], now, policy);
    var offer := Offer(Find(ps, o.symbol), a, policy);
    LosesWhenFlipping(Find(ps, o.symbol), a, policy);
    OfferRealizes(Find(ps, o.symbol), a, policy);
    FlipSums(ps, a, policy);
    ReleaseSigns(o, policy);
    var balance, k := FlipFails(ps, o, a, offer, policy);
    var os := TurnOrders(o, k, policy);
    StandingOk(ps, balance, os, Max(1, o.id + 2));
    s, i := Standing(ps, balance, os, Max(1, o.id + 2)), |os| - 1;
    TurnFillsWhenOpen(s, i, marks, now, policy);
    var left := TurnClears(s, i, marks, now, policy);
  }

  lemma FlipFails(ps: seq<Position>, o: Order, a: Ask, offer: FillResult, policy: Policy) returns (balance: int, k: nat)
    requires offer.realizedPnl < 0 && MarginsOk(policy) && 0.0 < Released(o, policy) <= Pledged(o, policy)
    requires var next := Replace(ps, a.symbol, offer.next);
             && GateProfit(next, a.symbol, a.price) == 0 && GateExposure(next, a.symbol, a.price) >= 0.0
             && !Covers(o, -offer.realizedPnl, GateExposure(next, a.symbol, a.price), policy)
    ensures balance >= offer.feeUsd
    ensures OpensFor(balance, ps, Pledged(o, policy) + Times(k, Released(o, policy)), a, offer, policy)
    ensures var pledged := Pledged(o, policy) + Times(k, Released(o, policy));
            !PassesAfter(balance, ps, pledged - Released(o, policy), a, offer, policy)
  {
    var exposure := GateExposure(Replace(ps, a.symbol, offer.next), a.symbol, a.price);
    var funds;
    funds, k := UncoveredFails(exposure, o, -offer.realizedPnl, policy);
    balance := funds + offer.feeUsd;
    var pledged := Pledged(o, policy) + Times(k, Released(o, policy));
    OnFunds(funds, balance, ps, pledged, a, offer, policy);
    OnFunds(funds, balance, ps, pledged - Released(o, policy), a, offer, policy);
  }

  /** The turn of a resting order that increases exposure leaves every account with these positions passing
      that can pay its fee, exactly when it does not flip the position at a loss its pledge does not cover. */
  lemma TurnHoldsExactly(ps: seq<Position>, o: Order, marks: Marks, now: int, policy: Policy)
    requires TurnOk(ps, o, marks, now, policy)
    ensures TurnHolds(ps, o, marks, now, policy) <==> TurnSafe(ps, o, marks[o.symbol], now, policy)
  {
    if TurnSafe(ps, o, marks[o.symbol], now, policy) {
      forall s: State, i: nat |
        i < |s.orders| && s.orders[i] == o && s.positions == ps && LoadedOk(s, 1) && TurnFills(s, i, marks, now, policy)
        && s.balanceUsd >= TurnOffer(ps, o, marks[o.symbol], now, policy).feeUsd
        ensures TurnPasses(s, i, marks, now, policy)
      {
        SafeTurnPasses(s, i, marks, now, policy);
      }
    } else {
      var s, i := UnsafeTurnFails(ps, o, marks, now, policy);
    }
  }

  // ----- accounts that cannot pay the fee -----------------------------------------------------

  ghost predicate TurnHoldsAlways(ps: seq<Position>, o: Order, marks: Marks, now: int, policy: Policy)
    requires o.symbol in marks
  {
    forall s: State, i: nat ::
      i < |s.orders| && s.orders[i] == o && s.positions == ps && LoadedOk(s, 1) && TurnFills(s, i, marks, now, policy)
      ==> TurnPasses(s, i, marks, now, policy)
  }

  /** The gate opens for the order on an empty balance, beside its own pledge alone. */
  predicate TurnOpensOnNothing(ps: seq<Position>, o: Order, market: int, now: int, policy: Policy) {
    OpensFor(0, ps, Pledged(o, policy), TurnAsk(o, market, now, policy), TurnOffer(ps, o, market, now, policy), policy)
  }

  lemma BrokeTurnOpens(s: State, i: nat, marks: Marks, now: int, policy: Policy)
    requires i < |s.orders| && LoadedOk(s, 1) && TurnOk(s.positions, s.orders[i], marks, now, policy)
    requires TurnFills(s, i, marks, now, policy)
    requires s.balanceUsd < TurnOffer(s.positions, s.orders[i], marks[s.orders[i].symbol], now, policy).feeUsd
    ensures TurnOpensOnNothing(s.positions, s.orders[i], marks[s.orders[i].symbol], now, policy)
  {
    var a := TurnAsk(s.orders[i], marks[s.orders[i].symbol], now, policy);
    var offer := Offer(Find(s.positions, a.symbol), a, policy);
    TurnFillsWhenOpen(s, i, marks, now, policy);
    OfferSound(Find(s.positions, a.symbol), a, policy);
    PledgesAtLeast(s.orders, i, policy.initialMarginRatio);
    OpenPledge(s.orders[i], policy.initialMarginRatio);
    BrokeOpens(s.balanceUsd, s.positions, OrderMargin(s.orders, policy.initialMarginRatio),
               Pledged(s.orders[i], policy), a, offer, policy);
  }

  lemma BrokeOpens(balance: int, ps: seq<Position>, more: real, less: real, a: Ask, offer: FillResult, policy: Policy)
    requires OpensFor(balance, ps, more, a, offer, policy) && balance < offer.feeUsd && less <= more
    requires offer.feeUsd >= 0
    ensures OpensFor(0, ps, less, a, offer, policy)
  {
  }

  /** If it opens so, it opens for a debt as well that the account cannot pass with. */
  lemma DebtFailsTurn(ps: seq<Position>, o: Order, marks: Marks, now: int, policy: Policy) returns (s: State)
    requires TurnOk(ps, o, marks, now, policy) && TurnOpensOnNothing(ps, o, marks[o.symbol], now, policy)
    ensures s.orders == [o] && s.positions == ps && LoadedOk(s, 1)
    ensures TurnFills(s, 0, marks, now, policy) && !TurnPasses(s, 0, marks, now, policy)
  {
    var a := TurnAsk(o, marks[o.symbol], now, policy);
    var offer := Offer(Find(ps, o.symbol), a, policy);
    OfferSound(Find(ps, o.symbol), a, policy);
    OpenPledge(o, policy.initialMarginRatio);
    assert [o][1..] == [] && OrderMargin([o], policy.initialMarginRatio) == Pledged(o, policy);
    var balance := DeepDebt(ps, Pledged(o, policy), a, offer, policy);
    StandingOk(ps, balance, [o], Max(1, o.id + 1));
    s := Standing(ps, balance, [o], Max(1, o.id + 1));
    TurnFillsWhenOpen(s, 0, marks, now, policy);
    var left := TurnClears(s, 0, marks, now, policy);
  }

  lemma DeepDebt(ps: seq<Position>, pledged: real, a: Ask, offer: FillResult, policy: Policy) returns (balance: int)
    requires OpensFor(0, ps, pledged, a, offer, policy) && offer.feeUsd >= 0
    ensures OpensFor(balance, ps, pledged, a, offer, policy)
    ensures forall left :: !PassesAfter(balance, ps, left, a, offer, policy)
  {
    var next := Replace(ps, a.symbol, offer.next);
    var maintenance := MarginOn(GateExposure(next, a.symbol, a.price), policy.maintenanceMarginRatio);
    balance := Min(0, maintenance.Floor - offer.realizedPnl - GateProfit(next, a.symbol, a.price));
  }

  /** Without asking that the fee can be paid: exactly when besides it does not open on nothing. */
  lemma TurnHoldsAlwaysExactly(ps: seq<Position>, o: Order, marks: Marks, now: int, policy: Policy)
    requires TurnOk(ps, o, marks, now, policy)
    ensures TurnHoldsAlways(ps, o, marks, now, policy)
            <==> TurnSafe(ps, o, marks[o.symbol], now, policy)
                 && !TurnOpensOnNothing(ps, o, marks[o.symbol], now, policy)
  {
    if !TurnSafe(ps, o, marks[o.symbol], now, policy) {
      var s, i := UnsafeTurnFails(ps, o, marks, now, policy);
    } else if TurnOpensOnNothing(ps, o, marks[o.symbol], now, policy) {
      var s := DebtFailsTurn(ps, o, marks, now, policy);
    } else {
      forall s: State, i: nat |
        i < |s.orders| && s.orders[i] == o && s.positions == ps && LoadedOk(s, 1) && TurnFills(s, i, marks, now, policy)
        ensures TurnPasses(s, i, marks, now, policy)
      {
        if s.balanceUsd < TurnOffer(ps, o, marks[o.symbol], now, policy).feeUsd {
          BrokeTurnOpens(s, i, marks, now, policy);
        }
        SafeTurnPasses(s, i, marks, now, policy);
      }
    }
  }

  // ----- whatever else the account holds ------------------------------------------------------

  /** The same beside any other positions. */
  ghost predicate TurnHoldsBeside(current: Option<Position>, o: Order, marks: Marks, now: int, policy: Policy)
    requires o.symbol in marks
  {
    forall ps :: HeldOk(ps) && Find(ps, o.symbol) == current ==> TurnHolds(ps, o, marks, now, policy)
  }

  /** The exposure of the flipped position beside others that cost so many units in all, at a price of one. */
  function ExposureBeside(current: Option<Position>, a: Ask, units: nat): real {
    Value(units, 1) + Value(a.qty - if current.Some? then current.value.qty else 0, a.price)
  }

  /** The pledge covers the loss of a flip at every exposure that other positions can add. */
  ghost predicate SafeBeside(current: Option<Position>, o: Order, market: int, now: int, policy: Policy) {
    var a := TurnAsk(o, market, now, policy);
    FlipsAtALoss(current, a) ==>
      forall units: nat :: Covers(o, -Realized(current, a), ExposureBeside(current, a, units), policy)
  }

  /** What the positions' cost comes to at a price of one. */
  function NotionalUnits(ps: seq<Position>): int {
    if ps == [] then 0 else ps[0].qty * ps[0].entryPrice + NotionalUnits(ps[1..])
  }

  lemma {:induction false} NotionalIsUnits(ps: seq<Position>)
    requires forall p :: p in ps ==> PositionOk(p, 1)
    ensures NotionalUnits(ps) >= 0 && Notional(ps) == Value(NotionalUnits(ps), 1)
  {
    if ps != [] {
      assert ps[0] in ps;
      NotionalIsUnits(ps[1..]);
      assert ps[0].qty * ps[0].entryPrice >= 0;
      ValueAdds(ps[0].qty * ps[0].entryPrice, NotionalUnits(ps[1..]), 1);
    }
  }

  /** The held position beside another one worth that much. */
  function HeldBeside(current: Option<Position>, symbol: Symbol, units: nat): seq<Position> {
    AsList(current)
    + if units == 0 then [] else [Position(symbol + symbol, Long, units, 1, None, None, Some(0), 0)]
  }

  lemma HeldBesideIs(current: Option<Position>, symbol: Symbol, units: nat)
    requires NextOk(symbol, current, 1) && symbol != ""
    ensures var ps := HeldBeside(current, symbol, units);
            && HeldOk(ps) && Find(ps, symbol) == current && Notional(Without(ps, symbol)) == Value(units, 1)
  {
    var other := Position(symbol + symbol, Long, units, 1, None, None, Some(0), 0);
    var rest := if units == 0 then [] else [other];
    assert |other.symbol| == |symbol| + |symbol|;
    assert rest[..] == rest && (units > 0 ==> rest[1..] == []);
    assert HeldBeside(current, symbol, units) == AsList(current) + rest;
    assert Without(rest, symbol) == rest && Find(rest, symbol) == None;
    if current.Some? {
      assert (AsList(current) + rest)[1..] == rest;
    } else {
      assert AsList(current) + rest == rest;
    }
  }

  lemma NeededBeside(current: Option<Position>, o: Order, marks: Marks, now: int, policy: Policy, units: nat)
    requires OrderOk(o, 1) && !o.reduceOnly && Touched(o, marks, policy)
    requires AskOk(current, TurnAsk(o, marks[o.symbol], now, policy), policy)
    requires TurnHoldsBeside(current, o, marks, now, policy)
    ensures var a := TurnAsk(o, marks[o.symbol], now, policy);
            FlipsAtALoss(current, a) ==> Covers(o, -Realized(current, a), ExposureBeside(current, a, units), policy)
  {
    HeldBesideIs(current, o.symbol, units);
    TurnHoldsExactly(HeldBeside(current, o.symbol, units), o, marks, now, policy);
  }

  lemma EnoughBeside(ps: seq<Position>, o: Order, marks: Marks, now: int, policy: Policy)
    requires TurnOk(ps, o, marks, now, policy) && SafeBeside(Find(ps, o.symbol), o, marks[o.symbol], now, policy)
    ensures TurnHolds(ps, o, marks, now, policy)
  {
    var a := TurnAsk(o, marks[o.symbol], now, policy);
    NotionalIsUnits(Without(ps, o.symbol));
    SameExposure(ps, a);
    TurnHoldsExactly(ps, o, marks, now, policy);
  }

  lemma SameExposure(ps: seq<Position>, a: Ask)
    requires NotionalUnits(Without(ps, a.symbol)) >= 0
    requires Notional(Without(ps, a.symbol)) == Value(NotionalUnits(Without(ps, a.symbol)), 1)
    ensures FlippedExposure(ps, a) == ExposureBeside(Find(ps, a.symbol), a, NotionalUnits(Without(ps, a.symbol)))
  {
  }

  /** Beside any other positions: exactly when the pledge covers the loss at every exposure they can add. */
  lemma TurnHoldsBesideExactly(current: Option<Position>, o: Order, marks: Marks, now: int, policy: Policy)
    requires OrderOk(o, 1) && !o.reduceOnly && Touched(o, marks, policy)
    requires AskOk(current, TurnAsk(o, marks[o.symbol], now, policy), policy)
    ensures TurnHoldsBeside(current, o, marks, now, policy) <==> SafeBeside(current, o, marks[o.symbol], now, policy)
  {
    if TurnHoldsBeside(current, o, marks, now, policy) {
      forall units: nat | FlipsAtALoss(current, TurnAsk(o, marks[o.symbol], now, policy))
        ensures var a := TurnAsk(o, marks[o.symbol], now, policy);
                Covers(o, -Realized(current, a), ExposureBeside(current, a, units), policy)
      {
        NeededBeside(current, o, marks, now, policy, units);
      }
    }
    if SafeBeside(current, o, marks[o.symbol], now, policy) {
      forall ps | HeldOk(ps) && Find(ps, o.symbol) == current ensures TurnHolds(ps, o, marks, now, policy) {
        EnoughBeside(ps, o, marks, now, policy);
      }
    }
  }

  /** Only exposures matter whose two margins differ by less than the loss and 2.5 units over the pledge. */
  lemma CoversFar(o: Order, loss: int, exposure: real, policy: Policy)
    requires loss as real <= Released(o, policy)
    requires MarginOn(exposure, policy.initialMarginRatio) - MarginOn(exposure, policy.maintenanceMarginRatio)
             + Pledged(o, policy) >= loss as real + 2.5
    ensures Covers(o, loss, exposure, policy)
  {
  }

  lemma AmpleCovers(o: Order, loss: int, exposure: real, policy: Policy)
    requires exposure >= 0.0 && MarginsOk(policy)
    requires (loss + 3) as real <= Released(o, policy) <= Pledged(o, policy)
    ensures Covers(o, loss, exposure, policy)
  {
    Weightier(exposure, policy.maintenanceMarginRatio, policy.initialMarginRatio);
    CoversFar(o, loss, exposure, policy);
  }

  lemma BesideNonNegative(current: Option<Position>, a: Ask, units: nat)
    requires TradesThrough(current, a) && a.price > 0
    ensures ExposureBeside(current, a, units) >= 0.0
  {
    ValueNonNegative(a.qty - current.value.qty, a.price);
    ValueNonNegative(units, 1);
  }

  /** So a turn that releases the loss and three units more is safe whatever the account holds. */
  lemma AmpleRelease(current: Option<Position>, o: Order, marks: Marks, now: int, policy: Policy)
    requires OrderOk(o, 1) && !o.reduceOnly && Touched(o, marks, policy)
    requires AskOk(current, TurnAsk(o, marks[o.symbol], now, policy), policy)
    requires Released(o, policy) >= (3 - Realized(current, TurnAsk(o, marks[o.symbol], now, policy))) as real
    ensures TurnHoldsBeside(current, o, marks, now, policy)
  {
    var a := TurnAsk(o, marks[o.symbol], now, policy);
    ReleaseSigns(o, policy);
    forall units: nat | FlipsAtALoss(current, a)
      ensures Covers(o, -Realized(current, a), ExposureBeside(current, a, units), policy)
    {
      BesideNonNegative(current, a, units);
      AmpleCovers(o, -Realized(current, a), ExposureBeside(current, a, units), policy);
    }
    TurnHoldsBesideExactly(current, o, marks, now, policy);
  }

  lemma Weightier(exposure: real, low: real, high: real)
    requires exposure >= 0.0 && low <= high
    ensures MarginOn(exposure, low) <= MarginOn(exposure, high)
  {
    assert (high - low) * exposure >= 0.0;
  }

  // ----- two stops that flip at a loss --------------------------------------------------------

  /** So many coins long, at an entry price. */
  function Coins(symbol: Symbol, coins: int, entry: int): Position {
    Position(symbol, Long, coins * COIN, entry, None, None, Some(0), 0)
  }

  function StopAsk(coins: int, price: int): Ask {
    Ask("BTCUSDT", coins * COIN, Sell, price, false, Set(None), Set(None), 0)
  }

  /** A stop to sell more coins than are held, below their entry. */
  lemma StopFlips(held: int, entry: int, sold: int, price: int)
    requires 0 < held < sold && 0 < price < entry
    ensures var o := StopOrder(Sell, sold * COIN, price);
            && OrderOk(o, 1) && Touched(o, map["BTCUSDT" := price], FreePolicy())
            && TurnAsk(o, price, 0, FreePolicy()) == StopAsk(sold, price)
            && Released(o, FreePolicy()) == Pledged(o, FreePolicy()) == Value(sold * COIN, price) * 0.1
  {
    RoundFixesUnits(price);
    assert price as real * (1.0 + -1.0 * (0.0 / 10000.0)) == price as real;
  }

  lemma StopAsks(held: int, entry: int, sold: int, price: int)
    requires 0 < held < sold && 0 < price < entry
    ensures var current := Some(Coins("BTCUSDT", held, entry));
            && AskOk(current, StopAsk(sold, price), FreePolicy())
            && FlipsAtALoss(current, StopAsk(sold, price))
            && Realized(current, StopAsk(sold, price)) == -(held * (entry - price))
  {
    var current := Some(Coins("BTCUSDT", held, entry));
    CoinsWorth(held, entry - price);
    CoinsWorth(held, price - entry);
    assert held * (price - entry) == -(held * (entry - price)) && held * (entry - price) >= 1;
    RoundFixesUnits(held * (price - entry));
    RoundFixesUnits(price);
    Fills.FillKeepsHeld(current, "BTCUSDT", sold * COIN, Sell, false, price, 0);
  }

  lemma CoinsWorth(coins: int, price: int)
    ensures Value(coins * COIN, price) == (coins * price) as real
  {
    assert coins * COIN * price == coins * price * COIN;
    Whole(coins * price);
  }

  lemma Whole(n: int)
    ensures (n * COIN) as real / SCALE == n as real
  {
  }

  /** Ten coins from 100, and a stop to sell twenty-one at 98: a loss of 20, but the stop releases 205 of
      margin, and whatever else the account holds it passes. */
  lemma PledgeCoversFlip()
    ensures var o := StopOrder(Sell, 21 * COIN, 98);
            var current := Some(Coins("BTCUSDT", 10, 100));
            && FlipsAtALoss(current, TurnAsk(o, 98, 0, FreePolicy()))
            && TurnHoldsBeside(current, o, map["BTCUSDT" := 98], 0, FreePolicy())
  {
    StopFlips(10, 100, 21, 98);
    StopAsks(10, 100, 21, 98);
    CoinsWorth(21, 98);
    var o := StopOrder(Sell, 21 * COIN, 98);
    AmpleRelease(Some(Coins("BTCUSDT", 10, 100)), o, map["BTCUSDT" := 98], 0, FreePolicy());
  }

  /** Four coins from 20, alone and beside two coins from 1. */
  function FourCoins(): seq<Position> {
    [Coins("BTCUSDT", 4, 20)]
  }

  function FourAndTwo(): seq<Position> {
    [Coins("BTCUSDT", 4, 20), Coins("ETHUSDT", 2, 1)]
  }

  lemma FourCoinsSums()
    ensures HeldOk(FourCoins()) && Find(FourCoins(), "BTCUSDT") == Some(Coins("BTCUSDT", 4, 20))
    ensures FlippedExposure(FourCoins(), StopAsk(5, 18)) == 18.0
  {
    CoinsWorth(1, 18);
    assert FourCoins()[1..] == [] && Without(FourCoins(), "BTCUSDT") == [];
  }

  lemma FourAndTwoSums()
    ensures HeldOk(FourAndTwo()) && Find(FourAndTwo(), "BTCUSDT") == Some(Coins("BTCUSDT", 4, 20))
    ensures FlippedExposure(FourAndTwo(), StopAsk(5, 18)) == 20.0
  {
    CoinsWorth(1, 18);
    CoinsWorth(2, 1);
    var two := [Coins("ETHUSDT", 2, 1)];
    assert FourAndTwo()[1..] == two && two[1..] == [] && Without(two, "BTCUSDT") == two;
    assert Notional(two) == 2.0;
  }

  lemma StopCoversAlone()
    ensures var o := StopOrder(Sell, 5 * COIN, 18);
            Covers(o, 8, 18.0, FreePolicy()) && !Covers(o, 8, 20.0, FreePolicy())
  {
    StopFlips(4, 20, 5, 18);
    CoinsWorth(5, 18);
  }

  /** A stop to sell five of the four coins at 18 loses 8: its pledge of 9 covers that if the account holds
      nothing else, and not beside the other position. */
  lemma NeighbourBreaksTurn()
    ensures var o := StopOrder(Sell, 5 * COIN, 18);
            var marks := map["BTCUSDT" := 18];
            && TurnOk(FourCoins(), o, marks, 0, FreePolicy()) && TurnHolds(FourCoins(), o, marks, 0, FreePolicy())
            && TurnOk(FourAndTwo(), o, marks, 0, FreePolicy()) && !TurnHolds(FourAndTwo(), o, marks, 0, FreePolicy())
  {
    var o := StopOrder(Sell, 5 * COIN, 18);
    var marks := map["BTCUSDT" := 18];
    StopFlips(4, 20, 5, 18);
    StopAsks(4, 20, 5, 18);
    FourCoinsSums();
    FourAndTwoSums();
    StopCoversAlone();
    TurnHoldsExactly(FourCoins(), o, marks, 0, FreePolicy());
    TurnHoldsExactly(FourAndTwo(), o, marks, 0, FreePolicy());
  }
}
