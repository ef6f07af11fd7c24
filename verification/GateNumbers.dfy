/** The gate's test before and after a fill in numbers, and accounts that stand just inside it. */
module GateNumbers {
  import opened Wrappers
  import opened FixedPoint
  import opened PaperTypes
  import opened Prices
  import opened Orders
  import opened Loading
  import opened Margin
  import opened Engine
  import opened Accounts
  import opened GateSoundness
  import opened GateExact
  import Fills

  /** The gate opens for the fill on such an account ... */
  predicate OpensFor(balance: int, ps: seq<Position>, pledged: real, a: Ask, offer: FillResult, policy: Policy) {
    var next := Replace(ps, a.symbol, offer.next);
    Clears(Max(0, balance - offer.feeUsd) + GateProfit(next, a.symbol, a.price), GateExposure(next, a.symbol, a.price),
           pledged, policy)
  }

  /** ... and the account passes after it, with such pledges then. */
  predicate PassesAfter(balance: int, ps: seq<Position>, pledged: real, a: Ask, offer: FillResult, policy: Policy) {
    var next := Replace(ps, a.symbol, offer.next);
    Clears(balance + offer.realizedPnl - offer.feeUsd + GateProfit(next, a.symbol, a.price),
           GateExposure(next, a.symbol, a.price), pledged, policy)
  }

  lemma JudgedClears(s: State, a: Ask, offer: FillResult, policy: Policy)
    requires LoadedOk(s, 1) && NextOk(a.symbol, offer.next, 1)
    ensures Passes(Judged(s, a.symbol, offer, a.price, policy))
            <==> OpensFor(s.balanceUsd, s.positions, OrderMargin(s.orders, policy.initialMarginRatio), a, offer, policy)
  {
    JudgedIs(s, a.symbol, offer, a.price, policy);
    AtGateClears(Max(0, s.balanceUsd - offer.feeUsd), Replace(s.positions, a.symbol, offer.next),
                 OrderMargin(s.orders, policy.initialMarginRatio), a.symbol, a.price, policy);
  }

  lemma LeftClears(s: State, a: Ask, offer: FillResult, os: seq<Order>, policy: Policy)
    ensures Passes(Left(s, a.symbol, offer, a.price, os, policy))
            <==> PassesAfter(s.balanceUsd, s.positions, OrderMargin(os, policy.initialMarginRatio), a, offer, policy)
  {
    LeftIs(s, a.symbol, offer, a.price, os, policy);
    AtGateClears(s.balanceUsd + offer.realizedPnl - offer.feeUsd, Replace(s.positions, a.symbol, offer.next),
                 OrderMargin(os, policy.initialMarginRatio), a.symbol, a.price, policy);
  }

  /** The gate lets the fill through exactly when it opens for what it would fill. */
  lemma AcceptedWhenOpen(s: State, a: Ask, policy: Policy)
    requires LoadedOk(s, 1) && AskOk(Find(s.positions, a.symbol), a, policy)
    ensures var offer := Offer(Find(s.positions, a.symbol), a, policy);
            Accepted(s, a, policy)
            <==> OpensFor(s.balanceUsd, s.positions, OrderMargin(s.orders, policy.initialMarginRatio), a, offer, policy)
  {
    var offer := Offer(Find(s.positions, a.symbol), a, policy);
    AcceptedIsOffer(s, a, policy);
    OfferSound(Find(s.positions, a.symbol), a, policy);
    JudgedClears(s, a, offer, policy);
  }

  /** Both, for the funds an account has after the fee. */
  lemma OnFunds(funds: int, balance: int, ps: seq<Position>, pledged: real, a: Ask, offer: FillResult, policy: Policy)
    requires var next := Replace(ps, a.symbol, offer.next);
             funds == balance - offer.feeUsd + GateProfit(next, a.symbol, a.price) && balance >= offer.feeUsd
    ensures var exposure := GateExposure(Replace(ps, a.symbol, offer.next), a.symbol, a.price);
            && (OpensFor(balance, ps, pledged, a, offer, policy) <==> Clears(funds, exposure, pledged, policy))
            && (PassesAfter(balance, ps, pledged, a, offer, policy)
                <==> Clears(funds + offer.realizedPnl, exposure, pledged, policy))
  {
  }

  /** What the fill realizes covers the new pledges. */
  lemma StillPasses(balance: int, ps: seq<Position>, before: real, after: real, a: Ask, offer: FillResult,
                    policy: Policy)
    requires OpensFor(balance, ps, before, a, offer, policy) && balance >= offer.feeUsd && offer.realizedPnl >= 0
    requires after - before <= offer.realizedPnl as real
    ensures PassesAfter(balance, ps, after, a, offer, policy)
  {
  }

  lemma FewerPledgesPass(balance: int, ps: seq<Position>, more: real, less: real, a: Ask, offer: FillResult,
                         policy: Policy)
    requires less <= more && PassesAfter(balance, ps, more, a, offer, policy)
    ensures PassesAfter(balance, ps, less, a, offer, policy)
  {
  }

  // ----- stepping to the edge -----------------------------------------------------------------

  lemma Enough(x: real, gap: real) returns (n: nat)
    requires gap > 0.0
    ensures x < Times(n, gap)
  {
    if x < 0.0 {
      n := 0;
    } else {
      var q := x / gap;
      n := q.Floor + 1;
      assert q * gap == x;
      Below(q, n as real, gap);
    }
  }

  lemma Below(a: real, b: real, c: real)
    requires a < b && c > 0.0
    ensures a * c < b * c
  {
  }

  /** That many times an amount. */
  function Times(k: int, x: real): real {
    k as real * x
  }

  lemma OneMore(k: nat, x: real, n: int)
    ensures Times(k + 1, x) == Times(k, x) + x && (k + 1) * n == k * n + n
  {
  }

  /** Adding less money than pledges, over and over, leaves the funds clear for a last time. */
  lemma {:induction false} StepOut(funds: int, exposure: real, pledged: real, gain: nat, pledge: real, policy: Policy,
                                   n: nat)
    returns (k: nat)
    requires Clears(funds, exposure, pledged, policy)
    requires funds as real - MarginOn(exposure, policy.initialMarginRatio) - pledged + 1.5
             < Times(n, pledge - gain as real)
    ensures Clears(funds + k * gain, exposure, pledged + Times(k, pledge), policy)
    ensures !Clears(funds + (k + 1) * gain, exposure, pledged + Times(k + 1, pledge), policy)
    decreases n
  {
    if Clears(funds + gain, exposure, pledged + pledge, policy) {
      OneMore(n - 1, pledge - gain as real, 0);
      var rest := StepOut(funds + gain, exposure, pledged + pledge, gain, pledge, policy, n - 1);
      OneMore(rest, pledge, gain);
      OneMore(rest + 1, pledge, gain);
      k := rest + 1;
    } else {
      k := 0;
    }
  }

  /** Adding more money than pledges, over and over, makes the funds clear for a first time. */
  lemma {:induction false} StepIn(funds: int, exposure: real, pledged: real, loss: nat, pledge: real, policy: Policy,
                                  n: nat)
    returns (k: nat)
    requires !Clears(funds, exposure, pledged, policy) && 0.0 <= pledge
    requires MarginOn(exposure, policy.initialMarginRatio) + pledged - funds as real
             < Times(n, loss as real - pledge)
    requires MarginOn(exposure, policy.maintenanceMarginRatio) + 1.0 - funds as real
             < Times(n, loss as real - pledge)
    ensures k > 0 && Clears(funds + k * loss, exposure, pledged + Times(k, pledge), policy)
    ensures !Clears(funds + (k - 1) * loss, exposure, pledged + Times(k - 1, pledge), policy)
    decreases n
  {
    if Clears(funds + loss, exposure, pledged + pledge, policy) {
      k := 1;
    } else {
      OneMore(n - 1, loss as real - pledge, 0);
      var rest := StepIn(funds + loss, exposure, pledged + pledge, loss, pledge, policy, n - 1);
      OneMore(rest, pledge, loss);
      OneMore(rest - 1, pledge, loss);
      k := rest + 1;
    }
  }

  // ----- pledges ------------------------------------------------------------------------------

  /** An untouched order to buy that many units at a price of one. */
  function Filler(id: int, symbol: Symbol, units: nat): Order {
    Order(id, symbol, Buy, Limit, units, 1, false, None, None, None, Open, units, 0, units, None, 0, 0)
  }

  /** It pledges that many times the margin of such an order. */
  lemma FillerPledges(id: int, symbol: Symbol, times: nat, qty: nat, price: nat, ratio: real)
    requires times > 0 && qty > 0 && price > 0
    ensures times * (qty * price) > 0
    ensures OrderOk(Filler(id, symbol, times * (qty * price)), 1)
    ensures OrderMarginOf(Filler(id, symbol, times * (qty * price)), ratio) == Times(times, Pledge(qty, price, ratio))
  {
    var worth := qty * price;
    assert worth > 0 && times * worth > 0;
    assert (times * worth) as real == times as real * worth as real;
    Regroup(times as real, worth as real, ratio);
  }

  lemma Regroup(k: real, n: real, ratio: real)
    ensures k * n / SCALE * ratio == k * (n / SCALE * ratio)
  {
    assert k * n / SCALE == k * (n / SCALE);
  }

  /** An account that has only these positions and orders. */
  function Standing(ps: seq<Position>, balance: int, os: seq<Order>, next: int): State {
    State(balance, 0, 0, 0, 0, 0, next, ps, os)
  }

  lemma StandingOk(ps: seq<Position>, balance: int, os: seq<Order>, next: int)
    requires UniqueSymbols(ps) && forall p :: p in ps ==> PositionOk(p, 1) && ExitsPositive(p)
    requires (forall o :: o in os ==> OrderOk(o, 1) && o.symbol != "") && IdsDescend(os, next)
    requires |os| <= MAX_ORDERS && next >= 1
    ensures LoadedOk(Standing(ps, balance, os, next), 1)
  {
  }

  lemma NoTimes(x: real)
    ensures Times(0, x) == 0.0
  {
  }

  lemma {:induction false} PledgesAtLeast(os: seq<Order>, i: nat, ratio: real)
    requires i < |os| && ratio >= 0.0 && forall o :: o in os ==> OrderOk(o, 1)
    ensures OrderMargin(os, ratio) >= OrderMarginOf(os[i], ratio)
  {
    assert os[0] in os;
    PledgesNonNegative(os[1..], ratio);
    PledgesNonNegative([os[0]], ratio);
    assert [os[0]][1..] == [];
    if i > 0 {
      PledgesAtLeast(os[1..], i - 1, ratio);
    }
  }

  /** The margin that a remainder pledges. */
  function Pledge(left: int, price: int, ratio: real): real {
    Value(left, price) * ratio
  }

  lemma RecordKeepsPrice(o: Order, qty: int, price: int, feeUsd: int)
    ensures RecordFill(o, qty, price, feeUsd).price == o.price
    ensures !RecordFill(o, qty, price, feeUsd).status.Cancelled?
  {
  }

  lemma OpenPledge(o: Order, ratio: real)
    requires OrderOk(o, 1) && o.status.Open? && !o.reduceOnly
    ensures OrderMarginOf(o, ratio) == Pledge(o.remainingQty, o.price, ratio)
  {
  }

  lemma PledgeSign(left: nat, price: int, ratio: real)
    requires price > 0 && ratio > 0.0
    ensures Pledge(left, price, ratio) >= 0.0 && (left > 0 <==> Pledge(left, price, ratio) > 0.0)
  {
    assert left * price >= left;
    PositiveProduct(Value(left, price), ratio);
  }

  lemma PositiveProduct(x: real, y: real)
    requires x >= 0.0 && y > 0.0
    ensures x * y >= 0.0 && (x > 0.0 ==> x * y > 0.0)
  {
  }

  /** Orders that are dropped release their pledges. */
  lemma {:induction false} PrefixPledgesLess(os: seq<Order>, n: nat, ratio: real)
    requires n <= |os| && ratio >= 0.0 && forall o :: o in os ==> OrderOk(o, 1)
    ensures OrderMargin(os[..n], ratio) <= OrderMargin(os, ratio)
  {
    if n == 0 {
      PledgesNonNegative(os, ratio);
    } else {
      PrefixPledgesLess(os[1..], n - 1, ratio);
      assert os[..n][1..] == os[1..][..n - 1];
    }
  }

  // ----- what the fill realizes ---------------------------------------------------------------

  /** The realized amount of a fill that increases exposure: that of the position it trades through. */
  function Realized(current: Option<Position>, a: Ask): int {
    if TradesThrough(current, a) then Round(Value(current.value.qty, -LossPerUnit(current.value, a.price))) else 0
  }

  lemma OfferRealizes(current: Option<Position>, a: Ask, policy: Policy)
    requires AskOk(current, a, policy)
    ensures Offer(current, a, policy).realizedPnl == Realized(current, a)
  {
    Fills.FillKeepsHeld(current, a.symbol, a.qty, a.side, false, a.price, a.now);
    RoundFixesUnits(0);
  }

  /** It is a loss exactly when the order flips at one. */
  lemma LosesWhenFlipping(current: Option<Position>, a: Ask, policy: Policy)
    requires AskOk(current, a, policy)
    ensures Realized(current, a) < 0 <==> FlipsAtALoss(current, a)
  {
    OfferRealizes(current, a, policy);
    LossIsFlip(current, a, policy);
  }
}
