/** Fill prices, fees and the conditions under which a resting order is touched. */
module Prices {
  import opened Wrappers
  import opened FixedPoint
  import opened PaperTypes

  datatype Reason = MarketOrder | StopMarket | StopLimit | TakeProfit | StopLoss | LimitTouch

  /** resolvePaperAggressiveFillPrice: the market price moved against the taker by the slippage. */
  function AggressivePrice(side: Side, market: int, slippageBps: real): int {
    var direction := if side.Buy? then 1.0 else -1.0;
    Round(market as real * (1.0 + direction * (slippageBps / 10000.0)))
  }

  /** resolvePaperTriggeredFillPrice */
  function TriggeredPrice(side: Side, kind: Kind, limitPrice: int, market: int, trigger: Option<int>,
                          reason: Reason, policy: Policy): int
  {
    if reason.TakeProfit? then
      if trigger.Some? then trigger.value else limitPrice
    else if kind.Limit? && !reason.StopLoss? then limitPrice
    else
      AggressivePrice(side, market,
                      if reason.StopMarket? || reason.StopLoss? then policy.stopSlippageBps
                      else policy.marketSlippageBps)
  }

  /** calculatePaperFeeUsd */
  function Fee(notional: real, maker: bool, policy: Policy): int {
    var bps := if maker then policy.makerFeeBps else policy.takerFeeBps;
    Round((if notional > 0.0 then notional else 0.0) * bps / 10000.0)
  }

  predicate StopTriggered(order: Order, market: int) {
    if order.trigger.None? || order.trigger.value <= 0 then true
    else if order.side.Buy? then market >= order.trigger.value
    else market <= order.trigger.value
  }

  predicate Marketable(side: Side, limitPrice: int, market: int) {
    limitPrice > 0 && market > 0 && if side.Buy? then market <= limitPrice else market >= limitPrice
  }

  /** A price no better for the taker than the market's. */
  predicate NotBetter(side: Side, price: int, market: int) {
    if side.Buy? then price >= market else price <= market
  }

  /** Slippage only ever moves a price against the account. */
  predicate SlipsAgainst(policy: Policy) {
    policy.marketSlippageBps >= 0.0 && policy.stopSlippageBps >= 0.0 && policy.liquidationSlippageBps >= 0.0
  }

  lemma AggressiveNotBetter(side: Side, market: int, slippageBps: real)
    requires market > 0 && slippageBps >= 0.0
    ensures NotBetter(side, AggressivePrice(side, market, slippageBps), market)
  {
    var direction := if side.Buy? then 1.0 else -1.0;
    var x := market as real * (1.0 + direction * (slippageBps / 10000.0));
    Moved(market as real, direction * (slippageBps / 10000.0));
    RoundFixesUnits(market);
    if side.Buy? {
      RoundMonotone(market as real, x);
    } else {
      RoundMonotone(x, market as real);
    }
  }

  lemma Moved(m: real, f: real)
    requires m >= 0.0
    ensures f >= 0.0 ==> m * (1.0 + f) >= m
    ensures f <= 0.0 ==> m * (1.0 + f) <= m
  {
    assert m * (1.0 + f) == m + m * f;
  }

  lemma FeeNonNegative(notional: real, maker: bool, policy: Policy)
    requires FeesOk(policy)
    ensures Fee(notional, maker, policy) >= 0
  {
  }

  // ----- how low a price can get --------------------------------------------------------------

  /** What is left of the mark after the slippage rounds to at least one unit. */
  predicate Sellable(market: int, slippageBps: real) {
    market as real * (1.0 - slippageBps / 10000.0) >= 0.5
  }

  /** A sell is priced above zero exactly on the marks that the slippage leaves half a unit of. */
  lemma SellFloorAt(market: int, slippageBps: real)
    requires market > 0 && SlippageOk(slippageBps)
    ensures AggressivePrice(Sell, market, slippageBps) > 0 <==> Sellable(market, slippageBps)
    ensures AggressivePrice(Sell, market, slippageBps) >= 0
  {
    assert 1.0 + -1.0 * (slippageBps / 10000.0) == 1.0 - slippageBps / 10000.0;
    Product(market as real, 1.0 - slippageBps / 10000.0);
  }

  lemma Product(m: real, f: real)
    requires m >= 0.0 && f >= 0.0
    ensures m * f >= 0.0
  {
  }

  lemma SellableAbove(low: int, market: int, slippageBps: real)
    requires low <= market && SlippageOk(slippageBps) && Sellable(low, slippageBps)
    ensures Sellable(market, slippageBps)
  {
    Product((market - low) as real, 1.0 - slippageBps / 10000.0);
    assert (market - low) as real * (1.0 - slippageBps / 10000.0)
        == market as real * (1.0 - slippageBps / 10000.0) - low as real * (1.0 - slippageBps / 10000.0);
  }

  /** Every positive mark can be sold at exactly up to a slippage of 50%: above it the one-unit mark cannot. */
  lemma SellFloor(slippageBps: real)
    requires SlippageOk(slippageBps)
    ensures (forall market: int :: market > 0 ==> AggressivePrice(Sell, market, slippageBps) > 0)
            <==> slippageBps <= 5000.0
  {
    SellFloorAt(1, slippageBps);
    if slippageBps <= 5000.0 {
      forall market: int | market > 0 ensures AggressivePrice(Sell, market, slippageBps) > 0 {
        SellableAbove(1, market, slippageBps);
        SellFloorAt(market, slippageBps);
      }
    }
  }

  // ----- the floor of a run -------------------------------------------------------------------

  /** A mark at `floor` can be sold at under every slippage of the policy. */
  predicate FloorOk(floor: nat, policy: Policy) {
    && floor > 0
    && Sellable(floor, policy.marketSlippageBps)
    && Sellable(floor, policy.stopSlippageBps)
    && Sellable(floor, policy.liquidationSlippageBps)
  }

  /** Floor 0 asks nothing of the policy, a mark or a price; a positive floor keeps all of them above zero. */
  predicate PolicyFits(policy: Policy, floor: nat) {
    floor > 0 ==> PolicyOk(policy) && FloorOk(floor, policy)
  }

  predicate MarkFits(market: int, floor: nat) {
    floor > 0 ==> market >= floor
  }

  predicate MarksFit(marks: Marks, floor: nat) {
    forall s :: s in marks ==> MarkFits(marks[s], floor)
  }

  predicate PriceFits(side: Side, price: int, floor: nat) {
    floor > 0 ==> price > 0 && (side.Buy? ==> price >= floor)
  }

  lemma AggressiveFits(side: Side, market: int, slippageBps: real, floor: nat)
    requires floor > 0 ==> market > 0 && SlippageOk(slippageBps)
    requires floor > 0 && side.Sell? ==> Sellable(market, slippageBps)
    ensures floor > 0 ==> AggressivePrice(side, market, slippageBps) > 0
    ensures MarkFits(market, floor) ==> PriceFits(side, AggressivePrice(side, market, slippageBps), floor)
  {
    if floor > 0 {
      AggressiveNotBetter(side, market, slippageBps);
      SellFloorAt(market, slippageBps);
    }
  }

  lemma SlippedFits(side: Side, market: int, slippageBps: real, floor: nat)
    requires floor > 0 ==> market >= floor && SlippageOk(slippageBps) && Sellable(floor, slippageBps)
    ensures PriceFits(side, AggressivePrice(side, market, slippageBps), floor)
  {
    if floor > 0 {
      SellableAbove(floor, market, slippageBps);
    }
    AggressiveFits(side, market, slippageBps, floor);
  }

  /** A fill price above the floor for a buy and above zero for a sell, if the limit or the trigger is. */
  lemma TriggeredPriceFits(side: Side, kind: Kind, limitPrice: int, market: int, trigger: Option<int>,
                           reason: Reason, policy: Policy, floor: nat)
    requires PolicyFits(policy, floor) && MarkFits(market, floor)
    requires reason.TakeProfit? ==> trigger.Some? && PriceFits(side, trigger.value, floor)
    requires kind.Limit? ==> PriceFits(side, limitPrice, floor)
    ensures PriceFits(side, TriggeredPrice(side, kind, limitPrice, market, trigger, reason, policy), floor)
  {
    SlippedFits(side, market, policy.stopSlippageBps, floor);
    SlippedFits(side, market, policy.marketSlippageBps, floor);
  }
}
