/** Exactly when the margin gate can be relied on, for a held position and a fill that increases exposure,
    as long as the list of orders stays as it was. PlacedGate and RestingGate say it for the engine's steps. */
module GateExact {
  import opened Wrappers
  import opened FixedPoint
  import opened PaperTypes
  import opened Prices
  import opened Orders
  import opened Loading
  import opened Margin
  import opened Engine
  import opened Accounts
  import opened GateSoundness
  import Fills
  import Equity

  /** A fill asked for: everything about it but the account. */
  datatype Ask = Ask(symbol: Symbol, qty: int, side: Side, price: int, maker: bool,
                     takeProfit: Attached, stopLoss: Attached, now: int)

  function Filled(s: State, a: Ask, policy: Policy): FillResult {
    OrderFill(s, a.symbol, a.qty, a.side, false, a.price, a.maker, a.takeProfit, a.stopLoss, a.now, policy)
  }

  /** What it fills if the gate lets it through. */
  function Offer(current: Option<Position>, a: Ask, policy: Policy): FillResult {
    var out := Fills.ApplyFill(current, a.symbol, a.qty, a.side, false, a.price, a.now);
    FillResult(out.filledQty, out.realizedPnl, Fee(Value(out.filledQty, a.price), a.maker, policy),
               if out.next.Some? then Some(Attach(out.next.value, a.takeProfit, a.stopLoss)) else None)
  }

  ghost predicate AskOk(current: Option<Position>, a: Ask, policy: Policy) {
    && a.symbol != "" && a.qty > 0 && a.price > 0 && FeesOk(policy) && MarginsOk(policy)
    && NextOk(a.symbol, current, 1)
    && Increases(current, Offer(current, a, policy).next)
  }

  /** The account it leaves, with the orders there were, passes the gate's own test. */
  predicate LeavesPassing(s: State, a: Ask, policy: Policy) {
    Passes(Left(s, a.symbol, Filled(s, a, policy), a.price, s.orders, policy))
  }

  predicate Accepted(s: State, a: Ask, policy: Policy) {
    Filled(s, a, policy).filledQty > 0
  }

  /** Every well-formed account that holds the position, can pay the fee and is let through passes afterwards. */
  ghost predicate GateHolds(current: Option<Position>, a: Ask, policy: Policy) {
    forall s :: LoadedOk(s, 1) && Find(s.positions, a.symbol) == current && Accepted(s, a, policy)
                && s.balanceUsd >= Offer(current, a, policy).feeUsd
                ==> LeavesPassing(s, a, policy)
  }

  /** So does one that cannot pay the fee. */
  ghost predicate GateHoldsAlways(current: Option<Position>, a: Ask, policy: Policy) {
    forall s :: LoadedOk(s, 1) && Find(s.positions, a.symbol) == current && Accepted(s, a, policy)
                ==> LeavesPassing(s, a, policy)
  }

  /** The order trades through the position: what is held is closed, the rest opens the other way. */
  predicate TradesThrough(current: Option<Position>, a: Ask) {
    current.Some? && current.value.direction.Long? != a.side.Buy? && a.qty > current.value.qty
  }

  function LossPerUnit(p: Position, price: int): int {
    if p.direction.Long? then p.entryPrice - price else price - p.entryPrice
  }

  /** It does so at a price worse than the entry by half a unit of USD or more over the position. */
  predicate FlipsAtALoss(current: Option<Position>, a: Ask) {
    TradesThrough(current, a) && Value(current.value.qty, LossPerUnit(current.value, a.price)) >= 0.5
  }

  // ----- the offer ----------------------------------------------------------------------------

  lemma OfferSound(current: Option<Position>, a: Ask, policy: Policy)
    requires a.symbol != "" && a.qty > 0 && a.price > 0 && FeesOk(policy) && NextOk(a.symbol, current, 1)
    ensures var o := Offer(current, a, policy);
            o.filledQty == a.qty && o.feeUsd >= 0 && NextOk(a.symbol, o.next, 1)
  {
    Fills.FillKeepsHeld(current, a.symbol, a.qty, a.side, false, a.price, a.now);
    EntryFits(current, a.symbol, a.qty, a.side, false, a.price, a.now, 1);
    ExitsSurvive(current, a.symbol, a.qty, a.side, false, a.price, a.now);
    FeeNonNegative(Value(a.qty, a.price), a.maker, policy);
  }

  lemma AcceptedIsOffer(s: State, a: Ask, policy: Policy)
    requires LoadedOk(s, 1) && AskOk(Find(s.positions, a.symbol), a, policy)
    ensures var offer := Offer(Find(s.positions, a.symbol), a, policy);
            && (Accepted(s, a, policy) <==> Passes(Judged(s, a.symbol, offer, a.price, policy)))
            && (Accepted(s, a, policy) ==> Filled(s, a, policy) == offer)
  {
    OfferSound(Find(s.positions, a.symbol), a, policy);
  }

  /** Its realized amount is a loss exactly when it flips at one. */
  lemma LossIsFlip(current: Option<Position>, a: Ask, policy: Policy)
    requires AskOk(current, a, policy)
    ensures Offer(current, a, policy).realizedPnl < 0 <==> FlipsAtALoss(current, a)
  {
    Fills.FillKeepsHeld(current, a.symbol, a.qty, a.side, false, a.price, a.now);
    RoundFixesUnits(0);
    if current.Some? {
      ValueNegates(current.value.qty, LossPerUnit(current.value, a.price));
    }
  }

  /** After a flip the position is new at the fill price, so the gate sees no profit on it. */
  lemma FlipStartsAtPrice(current: Option<Position>, a: Ask, policy: Policy)
    requires AskOk(current, a, policy) && TradesThrough(current, a)
    ensures var next := Offer(current, a, policy).next; next.Some? && next.value.entryPrice == a.price
  {
    RoundFixesUnits(a.price);
  }

  // ----- an account that holds nothing else ---------------------------------------------------

  function Bare(current: Option<Position>, balance: int): State {
    State(balance, 0, 0, 0, 0, 0, 1, AsList(current), [])
  }

  /** Open profit and exposure of a position at the gate's mark. */
  function ProfitAt(next: Option<Position>, symbol: Symbol, price: int): int {
    Unrealized(AsList(next), GateMarks(AsList(next), symbol, price))
  }

  function ExposureAt(next: Option<Position>, symbol: Symbol, price: int): real {
    Exposure(AsList(next), GateMarks(AsList(next), symbol, price))
  }

  /** The valuation of a balance beside that position alone. */
  function Alone(balance: int, next: Option<Position>, symbol: Symbol, price: int, policy: Policy): Snapshot {
    AtGate(balance, AsList(next), 0.0, symbol, price, policy)
  }

  lemma ReplaceHeld(current: Option<Position>, symbol: Symbol, next: Option<Position>)
    requires current.Some? ==> current.value.symbol == symbol
    ensures Replace(AsList(current), symbol, next) == AsList(next)
    ensures Find(AsList(current), symbol) == current
  {
    if current.Some? {
      assert AsList(current)[1..] == [];
      assert Without(AsList(current)[1..], symbol) == [];
    }
  }

  lemma BareOk(current: Option<Position>, balance: int, symbol: Symbol)
    requires NextOk(symbol, current, 1)
    ensures LoadedOk(Bare(current, balance), 1) && Find(Bare(current, balance).positions, symbol) == current
  {
    ReplaceHeld(current, symbol, current);
  }

  lemma JudgedAlone(s: State, balance: int, symbol: Symbol, fill: FillResult, price: int, policy: Policy)
    requires LoadedOk(s, 1) && NextOk(symbol, fill.next, 1) && s.balanceUsd == balance && s.orders == []
    requires Replace(s.positions, symbol, fill.next) == AsList(fill.next)
    ensures Judged(s, symbol, fill, price, policy)
         == Alone(Max(0, balance - fill.feeUsd), fill.next, symbol, price, policy)
  {
    JudgedIs(s, symbol, fill, price, policy);
  }

  lemma BareJudged(current: Option<Position>, balance: int, symbol: Symbol, fill: FillResult, price: int,
                   policy: Policy)
    requires NextOk(symbol, current, 1) && NextOk(symbol, fill.next, 1)
    ensures Judged(Bare(current, balance), symbol, fill, price, policy)
         == Alone(Max(0, balance - fill.feeUsd), fill.next, symbol, price, policy)
  {
    BareOk(current, balance, symbol);
    ReplaceHeld(current, symbol, fill.next);
    JudgedAlone(Bare(current, balance), balance, symbol, fill, price, policy);
  }

  lemma LeftAlone(s: State, left: int, symbol: Symbol, fill: FillResult, price: int, policy: Policy)
    requires s.balanceUsd + fill.realizedPnl - fill.feeUsd == left
    requires Replace(s.positions, symbol, fill.next) == AsList(fill.next)
    ensures Left(s, symbol, fill, price, [], policy) == Alone(left, fill.next, symbol, price, policy)
  {
    LeftIsFrom(s, symbol, fill, price, [], left, policy);
  }

  lemma BareLeaves(current: Option<Position>, balance: int, symbol: Symbol, fill: FillResult)
    requires NextOk(symbol, current, 1)
    ensures Bare(current, balance).balanceUsd + fill.realizedPnl - fill.feeUsd
         == balance + fill.realizedPnl - fill.feeUsd
    ensures Replace(Bare(current, balance).positions, symbol, fill.next) == AsList(fill.next)
  {
    ReplaceHeld(current, symbol, fill.next);
  }

  lemma BareLeft(current: Option<Position>, balance: int, symbol: Symbol, fill: FillResult, price: int, policy: Policy)
    requires NextOk(symbol, current, 1)
    ensures Left(Bare(current, balance), symbol, fill, price, [], policy)
         == Alone(balance + fill.realizedPnl - fill.feeUsd, fill.next, symbol, price, policy)
  {
    BareLeaves(current, balance, symbol, fill);
    LeftAlone(Bare(current, balance), balance + fill.realizedPnl - fill.feeUsd, symbol, fill, price, policy);
  }

  // ----- the least balance that is let through ------------------------------------------------

  lemma PassingGrows(low: int, high: int, profit: int, exposure: real, policy: Policy)
    requires low <= high && Passes(Appraise(low, profit, exposure, 0.0, policy))
    ensures Passes(Appraise(high, profit, exposure, 0.0, policy))
  {
    var initial := MarginOn(exposure, policy.initialMarginRatio);
    RoundMonotone((low + profit) as real - initial - 0.0, (high + profit) as real - initial - 0.0);
  }

  /** A balance large enough to pass, whatever the position. */
  function Plenty(profit: int, exposure: real, policy: Policy): int {
    var initial := MarginOn(exposure, policy.initialMarginRatio);
    var maintenance := MarginOn(exposure, policy.maintenanceMarginRatio);
    Max(initial.Floor, maintenance.Floor) + 3 - profit
  }

  lemma PlentyPasses(profit: int, exposure: real, policy: Policy)
    ensures Passes(Appraise(Plenty(profit, exposure, policy), profit, exposure, 0.0, policy))
  {
    var initial := MarginOn(exposure, policy.initialMarginRatio);
    RoundMonotone(0.0, (Plenty(profit, exposure, policy) + profit) as real - initial - 0.0);
    RoundFixesUnits(0);
  }

  /** Between a balance that is refused and one that passes there is a least one that passes. */
  lemma {:induction false} LeastPassing(low: int, high: int, profit: int, exposure: real, policy: Policy)
    returns (b: int)
    requires low < high && !Passes(Appraise(low, profit, exposure, 0.0, policy))
    requires Passes(Appraise(high, profit, exposure, 0.0, policy))
    ensures low < b <= high && Passes(Appraise(b, profit, exposure, 0.0, policy))
    ensures !Passes(Appraise(b - 1, profit, exposure, 0.0, policy))
    decreases high - low
  {
    if Passes(Appraise(high - 1, profit, exposure, 0.0, policy)) {
      b := LeastPassing(low, high - 1, profit, exposure, policy);
    } else {
      b := high;
    }
  }

  lemma NothingIsRefused(exposure: real, policy: Policy)
    requires exposure >= 0.0 && MarginsOk(policy)
    ensures !Passes(Appraise(0, 0, exposure, 0.0, policy))
  {
    Product(exposure, policy.maintenanceMarginRatio);
  }

  /** A flipped position is worth its price at the gate, and its exposure is not negative. */
  lemma FlipViews(next: Option<Position>, symbol: Symbol, price: int)
    requires next.Some? && next.value.symbol == symbol && next.value.entryPrice == price && price > 0
    requires next.value.qty > 0
    ensures ProfitAt(next, symbol, price) == 0 && ExposureAt(next, symbol, price) >= 0.0
  {
    var p := next.value;
    var ps := AsList(next);
    assert ps == [p] && ps[..|ps| - 1] == [] && ps[1..] == [];
    var marks := GateMarks(ps, symbol, price);
    assert GateMarks([p][..0], symbol, price) == map[];
    assert marks == GateMarks([p][..0], symbol, price)[symbol := price];
    RoundFixesUnits(0);
    assert UnrealizedOf(p, marks) == 0 && ExposureOf(p, marks) == Value(p.qty, price);
    ValueNonNegative(p.qty, price);
    assert Unrealized(ps[1..], marks) == 0 && Exposure(ps[1..], marks) == 0.0;
  }

  /** The least balance with which a flipped position passes. */
  lemma LeastForFlip(next: Option<Position>, symbol: Symbol, price: int, policy: Policy) returns (b: int)
    requires next.Some? && next.value.symbol == symbol && next.value.entryPrice == price && price > 0
    requires next.value.qty > 0
    requires MarginsOk(policy)
    ensures b >= 1 && Passes(Alone(b, next, symbol, price, policy))
    ensures forall low :: low < b ==> !Passes(Alone(low, next, symbol, price, policy))
  {
    FlipViews(next, symbol, price);
    var exposure := ExposureAt(next, symbol, price);
    NothingIsRefused(exposure, policy);
    PlentyPasses(0, exposure, policy);
    if Plenty(0, exposure, policy) <= 0 {
      PassingGrows(Plenty(0, exposure, policy), 0, 0, exposure, policy);
    }
    b := LeastPassing(0, Plenty(0, exposure, policy), 0, exposure, policy);
    forall low | low < b ensures !Passes(Alone(low, next, symbol, price, policy)) {
      if Passes(Alone(low, next, symbol, price, policy)) {
        PassingGrows(low, b - 1, 0, exposure, policy);
      }
    }
  }

  /** The gate's answer on an account that holds nothing else ... */
  lemma BareIsAccepted(current: Option<Position>, balance: int, a: Ask, policy: Policy)
    requires AskOk(current, a, policy)
    requires var offer := Offer(current, a, policy);
             Passes(Alone(Max(0, balance - offer.feeUsd), offer.next, a.symbol, a.price, policy))
    ensures Accepted(Bare(current, balance), a, policy)
  {
    OfferSound(current, a, policy);
    BareOk(current, balance, a.symbol);
    BareJudged(current, balance, a.symbol, Offer(current, a, policy), a.price, policy);
    AcceptedIsOffer(Bare(current, balance), a, policy);
  }

  /** ... and that account afterwards. */
  lemma BareFails(current: Option<Position>, balance: int, a: Ask, policy: Policy)
    requires AskOk(current, a, policy) && Accepted(Bare(current, balance), a, policy)
    requires var offer := Offer(current, a, policy);
             !Passes(Alone(balance + offer.realizedPnl - offer.feeUsd, offer.next, a.symbol, a.price, policy))
    ensures !LeavesPassing(Bare(current, balance), a, policy)
  {
    var s := Bare(current, balance);
    BareOk(current, balance, a.symbol);
    AcceptedIsOffer(s, a, policy);
    BareLeft(current, balance, a.symbol, Filled(s, a, policy), a.price, policy);
    FailsIf(s, a, policy, Alone(balance + Filled(s, a, policy).realizedPnl - Filled(s, a, policy).feeUsd,
                                Filled(s, a, policy).next, a.symbol, a.price, policy));
  }

  lemma FailsIf(s: State, a: Ask, policy: Policy, v: Snapshot)
    requires Left(s, a.symbol, Filled(s, a, policy), a.price, s.orders, policy) == v && !Passes(v)
    ensures !LeavesPassing(s, a, policy)
  {
  }

  /** The gate lets through a flip at a loss on an account that fails once the loss is booked. */
  lemma FlipBreaksGate(current: Option<Position>, a: Ask, policy: Policy) returns (balance: int)
    requires AskOk(current, a, policy) && FlipsAtALoss(current, a)
    ensures Accepted(Bare(current, balance), a, policy) && !LeavesPassing(Bare(current, balance), a, policy)
    ensures balance >= Offer(current, a, policy).feeUsd
  {
    var offer := Offer(current, a, policy);
    OfferSound(current, a, policy);
    LossIsFlip(current, a, policy);
    FlipStartsAtPrice(current, a, policy);
    var b := LeastForFlip(offer.next, a.symbol, a.price, policy);
    balance := b + offer.feeUsd;
    BareIsAccepted(current, balance, a, policy);
    BareFails(current, balance, a, policy);
  }

  lemma HarmlessHolds(s: State, a: Ask, policy: Policy)
    requires LoadedOk(s, 1) && AskOk(Find(s.positions, a.symbol), a, policy) && Accepted(s, a, policy)
    requires !FlipsAtALoss(Find(s.positions, a.symbol), a)
    requires s.balanceUsd >= Offer(Find(s.positions, a.symbol), a, policy).feeUsd
    ensures LeavesPassing(s, a, policy)
  {
    var current := Find(s.positions, a.symbol);
    OfferSound(current, a, policy);
    AcceptedIsOffer(s, a, policy);
    LossIsFlip(current, a, policy);
    GateGap(s, a.symbol, Offer(current, a, policy), a.price, s.orders, policy);
  }

  /** The gate holds for every account that can pay the fee exactly when the fill does not flip the
      position at a loss. */
  lemma GateHoldsExactly(current: Option<Position>, a: Ask, policy: Policy)
    requires AskOk(current, a, policy)
    ensures GateHolds(current, a, policy) <==> !FlipsAtALoss(current, a)
  {
    if FlipsAtALoss(current, a) {
      var balance := FlipBreaksGate(current, a, policy);
      BareOk(current, balance, a.symbol);
    } else {
      forall s | LoadedOk(s, 1) && Find(s.positions, a.symbol) == current && Accepted(s, a, policy)
                 && s.balanceUsd >= Offer(current, a, policy).feeUsd
        ensures LeavesPassing(s, a, policy)
      {
        HarmlessHolds(s, a, policy);
      }
    }
  }

  // ----- accounts that cannot pay the fee -----------------------------------------------------

  /** The gate lets the fill through on no money at all, on the open profit of the position alone. */
  predicate OpensOnNothing(current: Option<Position>, a: Ask, policy: Policy) {
    Passes(Alone(0, Offer(current, a, policy).next, a.symbol, a.price, policy))
  }

  function OwnMark(p: Position, symbol: Symbol, price: int): int {
    if p.symbol == symbol then price else p.entryPrice
  }

  lemma {:induction false} GateMarksAre(ps: seq<Position>, symbol: Symbol, price: int)
    requires UniqueSymbols(ps)
    ensures forall p :: p in ps ==> p.symbol in GateMarks(ps, symbol, price)
                                    && GateMarks(ps, symbol, price)[p.symbol] == OwnMark(p, symbol, price)
  {
    if ps != [] {
      var init := ps[..|ps| - 1];
      GateMarksAre(init, symbol, price);
      forall p | p in ps
        ensures p.symbol in GateMarks(ps, symbol, price)
        ensures GateMarks(ps, symbol, price)[p.symbol] == OwnMark(p, symbol, price)
      {
        var i :| 0 <= i < |ps| && ps[i] == p;
        assert i < |ps| - 1 ==> p in init;
      }
    }
  }

  /** Positions valued at their own entry price show no profit and no negative exposure. */
  lemma {:induction false} EntryMarked(ps: seq<Position>, marks: Marks)
    requires forall p :: p in ps ==> p.symbol in marks && marks[p.symbol] == p.entryPrice && PositionOk(p, 1)
    ensures Unrealized(ps, marks) == 0 && Exposure(ps, marks) >= 0.0
  {
    if ps != [] {
      var p := ps[0];
      assert p in ps;
      EntryMarked(ps[1..], marks);
      RoundFixesUnits(0);
      ValueNonNegative(p.qty, p.entryPrice);
    }
  }

  lemma {:induction false} ExposureConcat(a: seq<Position>, b: seq<Position>, marks: Marks)
    ensures Exposure(a + b, marks) == Exposure(a, marks) + Exposure(b, marks)
  {
    if a == [] {
      assert a + b == b;
    } else {
      assert (a + b)[1..] == a[1..] + b;
      ExposureConcat(a[1..], b, marks);
    }
  }

  /** Beside other positions the gate sees the same profit on the filled one, and no less exposure. */
  lemma OthersOnlyWeigh(ps: seq<Position>, symbol: Symbol, next: Option<Position>, price: int)
    requires UniqueSymbols(ps) && (forall p :: p in ps ==> PositionOk(p, 1)) && NextOk(symbol, next, 1) && next.Some?
    ensures var all := Replace(ps, symbol, next);
            var marks := GateMarks(all, symbol, price);
            && Unrealized(all, marks) == ProfitAt(next, symbol, price)
            && Exposure(all, marks) >= ExposureAt(next, symbol, price)
  {
    var others := Without(ps, symbol);
    var all := Replace(ps, symbol, next);
    var marks := GateMarks(all, symbol, price);
    ReplaceIsUpdate(ps, symbol, next);
    GateMarksAre(all, symbol, price);
    GateMarksAre(AsList(next), symbol, price);
    assert next.value in all && next.value in AsList(next);
    EntryMarked(others, marks);
    Equity.UnrealizedConcat(others, AsList(next), marks);
    ExposureConcat(others, AsList(next), marks);
    SameMark(next.value, marks, GateMarks(AsList(next), symbol, price));
  }

  lemma SameMark(p: Position, a: Marks, b: Marks)
    requires p.symbol in a && p.symbol in b && a[p.symbol] == b[p.symbol]
    ensures Unrealized([p], a) == Unrealized([p], b) && Exposure([p], a) == Exposure([p], b)
  {
    assert [p][1..] == [];
  }

  lemma {:induction false} PledgesNonNegative(os: seq<Order>, ratio: real)
    requires ratio >= 0.0 && forall o :: o in os ==> OrderOk(o, 1)
    ensures OrderMargin(os, ratio) >= 0.0
  {
    if os != [] {
      var o := os[0];
      assert o in os;
      PledgesNonNegative(os[1..], ratio);
      ValueNonNegative(Remaining(o), o.price);
      Product(Value(Remaining(o), o.price), ratio);
    }
  }

  /** More exposure and more pledges never help. */
  lemma LighterPasses(balance: int, profit: int, more: real, less: real, pledged: real, policy: Policy)
    requires more >= less && pledged >= 0.0 && MarginsOk(policy)
    requires Passes(Appraise(balance, profit, more, pledged, policy))
    ensures Passes(Appraise(balance, profit, less, 0.0, policy))
  {
    MarginGrows(less, more, policy.initialMarginRatio);
    MarginGrows(less, more, policy.maintenanceMarginRatio);
    RoundMonotone((balance + profit) as real - MarginOn(more, policy.initialMarginRatio) - pledged,
                  (balance + profit) as real - MarginOn(less, policy.initialMarginRatio) - 0.0);
  }

  lemma MarginGrows(less: real, more: real, ratio: real)
    requires less <= more && ratio >= 0.0
    ensures MarginOn(less, ratio) <= MarginOn(more, ratio)
  {
    assert (more - less) * ratio >= 0.0;
  }

  lemma BrokeIsRefused(s: State, a: Ask, policy: Policy)
    requires LoadedOk(s, 1) && AskOk(Find(s.positions, a.symbol), a, policy) && Accepted(s, a, policy)
    requires s.balanceUsd < Offer(Find(s.positions, a.symbol), a, policy).feeUsd
    ensures OpensOnNothing(Find(s.positions, a.symbol), a, policy)
  {
    var current := Find(s.positions, a.symbol);
    var offer := Offer(current, a, policy);
    var all := Replace(s.positions, a.symbol, offer.next);
    var marks := GateMarks(all, a.symbol, a.price);
    var pledged := OrderMargin(s.orders, policy.initialMarginRatio);
    OfferSound(current, a, policy);
    AcceptedIsOffer(s, a, policy);
    OthersOnlyWeigh(s.positions, a.symbol, offer.next, a.price);
    PledgesNonNegative(s.orders, policy.initialMarginRatio);
    JudgedIs(s, a.symbol, offer, a.price, policy);
    LighterPasses(0, ProfitAt(offer.next, a.symbol, a.price), Exposure(all, marks),
                  ExposureAt(offer.next, a.symbol, a.price), pledged, policy);
  }

  lemma DeepBelowFails(balance: int, next: Option<Position>, symbol: Symbol, price: int, policy: Policy)
    requires var maintenance := MarginOn(ExposureAt(next, symbol, price), policy.maintenanceMarginRatio);
             balance <= maintenance.Floor - ProfitAt(next, symbol, price)
    ensures !Passes(Alone(balance, next, symbol, price, policy))
  {
  }

  /** If the gate opens on nothing, it lets a deep debt through as well. */
  lemma DebtBreaksGate(current: Option<Position>, a: Ask, policy: Policy) returns (balance: int)
    requires AskOk(current, a, policy) && OpensOnNothing(current, a, policy)
    ensures Accepted(Bare(current, balance), a, policy) && !LeavesPassing(Bare(current, balance), a, policy)
  {
    var offer := Offer(current, a, policy);
    OfferSound(current, a, policy);
    var maintenance := MarginOn(ExposureAt(offer.next, a.symbol, a.price), policy.maintenanceMarginRatio);
    balance := Min(0, maintenance.Floor - ProfitAt(offer.next, a.symbol, a.price) - offer.realizedPnl);
    BareIsAccepted(current, balance, a, policy);
    DeepBelowFails(balance + offer.realizedPnl - offer.feeUsd, offer.next, a.symbol, a.price, policy);
    BareFails(current, balance, a, policy);
  }

  /** Without asking for the fee to be payable, the gate holds exactly when besides it would not let
      the fill through on an empty balance. */
  lemma GateHoldsAlwaysExactly(current: Option<Position>, a: Ask, policy: Policy)
    requires AskOk(current, a, policy)
    ensures GateHoldsAlways(current, a, policy) <==> !FlipsAtALoss(current, a) && !OpensOnNothing(current, a, policy)
  {
    if FlipsAtALoss(current, a) {
      var balance := FlipBreaksGate(current, a, policy);
      BareOk(current, balance, a.symbol);
    } else if OpensOnNothing(current, a, policy) {
      var balance := DebtBreaksGate(current, a, policy);
      BareOk(current, balance, a.symbol);
    } else {
      forall s | LoadedOk(s, 1) && Find(s.positions, a.symbol) == current && Accepted(s, a, policy)
        ensures LeavesPassing(s, a, policy)
      {
        if s.balanceUsd < Offer(current, a, policy).feeUsd {
          BrokeIsRefused(s, a, policy);
        } else {
          HarmlessHolds(s, a, policy);
        }
      }
    }
  }
}
