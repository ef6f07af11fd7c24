/** Funding over time: many accruals credit the same whole intervals as one. */
module Funding {
  import opened FixedPoint
  import opened PaperTypes
  import opened Engine

  ghost predicate Nondecreasing(ts: seq<int>) {
    forall i, j :: 0 <= i <= j < |ts| ==> ts[i] <= ts[j]
  }

  /** The position after accruals at the given times. */
  function PositionAfter(p: Position, ts: seq<int>, policy: Policy): Position {
    if ts == [] then p else Advanced(PositionAfter(p, ts[..|ts| - 1], policy), ts[|ts| - 1], policy)
  }

  /** Whole intervals credited by each of them. */
  function Dues(p: Position, ts: seq<int>, policy: Policy): seq<int> {
    if ts == [] then []
    else
      Dues(p, ts[..|ts| - 1], policy)
      + [IntervalsDue(PositionAfter(p, ts[..|ts| - 1], policy), ts[|ts| - 1], policy)]
  }

  function Sum(ns: seq<int>): int {
    if ns == [] then 0 else Sum(ns[..|ns| - 1]) + ns[|ns| - 1]
  }

  function Credited(p: Position, ts: seq<int>, policy: Policy): int {
    Sum(Dues(p, ts, policy))
  }

  /** How many of them charged anything. */
  function Charging(ns: seq<int>): nat {
    if ns == [] then 0 else Charging(ns[..|ns| - 1]) + if ns[|ns| - 1] > 0 then 1 else 0
  }

  /** `n` intervals at a rate, by repeated addition. */
  function Times(rate: real, n: int): real {
    if n <= 0 then 0.0 else Times(rate, n - 1) + rate
  }

  /** Rounded amounts charged at a constant rate an interval. */
  function SumRounded(rate: real, ns: seq<int>): int {
    if ns == [] then 0 else SumRounded(rate, ns[..|ns| - 1]) + Round(Times(rate, ns[|ns| - 1]))
  }

  /** Rounded amounts charged by accruals at the given times and a constant mark. */
  function Charged(p: Position, mark: int, ts: seq<int>, policy: Policy): int {
    if ts == [] then 0
    else Charged(p, mark, ts[..|ts| - 1], policy)
         + Round(FundingDue(PositionAfter(p, ts[..|ts| - 1], policy), mark, ts[|ts| - 1], policy))
  }

  /** Intervals due, without division: as many as fit, at least none. */
  lemma DueFits(p: Position, now: int, policy: Policy)
    requires policy.fundingIntervalMinutes > 0
    ensures var due := IntervalsDue(p, now, policy);
            && due >= 0
            && (now >= Anchor(p) ==> SpanMs(due, policy) <= now - Anchor(p) < SpanMs(due, policy) + IntervalMs(policy))
            && (now < Anchor(p) ==> due == 0)
  {
    if now > Anchor(p) {
      Division(now - Anchor(p), IntervalMs(policy));
    }
  }

  lemma Distributes(a: int, b: int, policy: Policy)
    ensures SpanMs(a + b, policy) == SpanMs(a, policy) + SpanMs(b, policy)
  {
  }

  /** Intervals credited up to an anchor, and those due from it, are those since the first anchor. */
  lemma AddsUp(a: int, t: int, credited: int, due: int, policy: Policy)
    requires policy.fundingIntervalMinutes > 0
    requires var since := t - (a + SpanMs(credited, policy));
             SpanMs(due, policy) <= since < SpanMs(due, policy) + IntervalMs(policy)
    ensures credited + due == (t - a) / IntervalMs(policy)
    ensures SpanMs(credited + due, policy) == SpanMs(credited, policy) + SpanMs(due, policy)
  {
    Distributes(credited, due, policy);
    QuotientIs(t - a, IntervalMs(policy), credited + due);
  }

  lemma CreditedMore(p: Position, ts: seq<int>, policy: Policy)
    requires ts != []
    ensures var init := ts[..|ts| - 1];
            Credited(p, ts, policy)
            == Credited(p, init, policy) + IntervalsDue(PositionAfter(p, init, policy), ts[|ts| - 1], policy)
  {
    assert Dues(p, ts, policy)[..|Dues(p, ts, policy)| - 1] == Dues(p, ts[..|ts| - 1], policy);
  }

  /** After any accruals the intervals credited are those between the first anchor and the last
      call, and the new anchor is within one interval of it. */
  lemma {:induction false} FundingTelescopes(p: Position, ts: seq<int>, policy: Policy)
    requires policy.fundingIntervalMinutes > 0 && Nondecreasing(ts) && ts != [] && ts[|ts| - 1] >= Anchor(p)
    ensures var a := Anchor(p);
            var t := ts[|ts| - 1];
            var total := Credited(p, ts, policy);
            && total == (t - a) / IntervalMs(policy)
            && Anchor(PositionAfter(p, ts, policy)) == a + SpanMs(total, policy)
            && 0 <= t - Anchor(PositionAfter(p, ts, policy)) < IntervalMs(policy)
  {
    var init := ts[..|ts| - 1];
    var a := Anchor(p);
    var t := ts[|ts| - 1];
    if init != [] && init[|init| - 1] >= a {
      FundingTelescopes(p, init, policy);
    } else {
      EarlyCallsDoNothing(p, init, policy);
    }
    var mid := PositionAfter(p, init, policy);
    DueFits(mid, t, policy);
    CreditedMore(p, ts, policy);
    AddsUp(a, t, Credited(p, init, policy), IntervalsDue(mid, t, policy), policy);
  }

  lemma {:induction false} EarlyCallsDoNothing(p: Position, ts: seq<int>, policy: Policy)
    requires Nondecreasing(ts) && (ts != [] ==> ts[|ts| - 1] < Anchor(p))
    ensures PositionAfter(p, ts, policy) == p && Credited(p, ts, policy) == 0
  {
    if ts != [] {
      EarlyCallsDoNothing(p, ts[..|ts| - 1], policy);
    }
  }

  lemma {:induction false} SameRate(p: Position, mark: int, ts: seq<int>, policy: Policy)
    ensures FundingPerInterval(PositionAfter(p, ts, policy), mark, policy) == FundingPerInterval(p, mark, policy)
  {
    if ts != [] {
      SameRate(p, mark, ts[..|ts| - 1], policy);
    }
  }

  /** `charged` is `exact` up to half a unit for each of `n` roundings. */
  predicate Near(charged: int, exact: real, n: nat) {
    -(n as real) / 2.0 <= charged as real - exact <= n as real / 2.0
  }

  lemma {:induction false} TimesIsProduct(rate: real, n: int)
    requires n >= 0
    ensures Times(rate, n) == rate * n as real
  {
    if n > 0 {
      TimesIsProduct(rate, n - 1);
      assert rate * n as real == rate * (n - 1) as real + rate;
    }
  }

  lemma {:induction false} TimesAdds(rate: real, m: int, n: int)
    requires m >= 0 && n >= 0
    ensures Times(rate, m + n) == Times(rate, m) + Times(rate, n)
  {
    if n > 0 {
      TimesAdds(rate, m, n - 1);
    }
  }

  lemma {:induction false} SumNonNegative(ns: seq<int>)
    requires forall k :: 0 <= k < |ns| ==> ns[k] >= 0
    ensures Sum(ns) >= 0
  {
    if ns != [] {
      SumNonNegative(ns[..|ns| - 1]);
    }
  }

  lemma {:induction false} SumRoundedNear(rate: real, ns: seq<int>)
    requires forall k :: 0 <= k < |ns| ==> ns[k] >= 0
    ensures Near(SumRounded(rate, ns), Times(rate, Sum(ns)), Charging(ns))
  {
    if ns != [] {
      var init := ns[..|ns| - 1];
      SumRoundedNear(rate, init);
      SumNonNegative(init);
      TimesAdds(rate, Sum(init), ns[|ns| - 1]);
      RoundFixesUnits(0);
    }
  }

  lemma {:induction false} DuesNonNegative(p: Position, ts: seq<int>, policy: Policy)
    requires policy.fundingIntervalMinutes > 0
    ensures forall k :: 0 <= k < |Dues(p, ts, policy)| ==> Dues(p, ts, policy)[k] >= 0
  {
    if ts != [] {
      DuesNonNegative(p, ts[..|ts| - 1], policy);
      DueFits(PositionAfter(p, ts[..|ts| - 1], policy), ts[|ts| - 1], policy);
    }
  }

  /** What the engine charges for the intervals due is their number at the position's rate. */
  lemma DueIsTimes(p: Position, mark: int, now: int, policy: Policy)
    requires policy.fundingIntervalMinutes > 0
    ensures FundingDue(p, mark, now, policy) == Times(FundingPerInterval(p, mark, policy), IntervalsDue(p, now, policy))
  {
    DueFits(p, now, policy);
    TimesIsProduct(FundingPerInterval(p, mark, policy), IntervalsDue(p, now, policy));
  }

  lemma {:induction false} ChargedIsSumRounded(p: Position, mark: int, ts: seq<int>, policy: Policy)
    requires policy.fundingIntervalMinutes > 0
    ensures Charged(p, mark, ts, policy) == SumRounded(FundingPerInterval(p, mark, policy), Dues(p, ts, policy))
  {
    if ts != [] {
      var init := ts[..|ts| - 1];
      ChargedIsSumRounded(p, mark, init, policy);
      SameRate(p, mark, init, policy);
      DueIsTimes(PositionAfter(p, init, policy), mark, ts[|ts| - 1], policy);
      assert Dues(p, ts, policy)[..|Dues(p, ts, policy)| - 1] == Dues(p, init, policy);
    }
  }

  /** Many calls charge the exact funding of the intervals credited, up to half a unit for each call
      that charged. */
  lemma FundingCharges(p: Position, mark: int, ts: seq<int>, policy: Policy)
    requires policy.fundingIntervalMinutes > 0
    ensures Near(Charged(p, mark, ts, policy), Times(FundingPerInterval(p, mark, policy), Credited(p, ts, policy)),
                 Charging(Dues(p, ts, policy)))
  {
    ChargedIsSumRounded(p, mark, ts, policy);
    DuesNonNegative(p, ts, policy);
    SumRoundedNear(FundingPerInterval(p, mark, policy), Dues(p, ts, policy));
  }

  lemma TwoWaysNear(rate: real, ns: seq<int>, ms: seq<int>)
    requires Sum(ns) == Sum(ms)
    requires (forall k :: 0 <= k < |ns| ==> ns[k] >= 0) && (forall k :: 0 <= k < |ms| ==> ms[k] >= 0)
    ensures Near(SumRounded(rate, ns), SumRounded(rate, ms) as real, Charging(ns) + Charging(ms))
  {
    SumRoundedNear(rate, ns);
    SumRoundedNear(rate, ms);
  }

  lemma SameIntervals(p: Position, ts: seq<int>, policy: Policy)
    requires policy.fundingIntervalMinutes > 0 && Nondecreasing(ts) && ts != [] && ts[|ts| - 1] >= Anchor(p)
    ensures var once := [ts[|ts| - 1]];
            && Anchor(PositionAfter(p, ts, policy)) == Anchor(PositionAfter(p, once, policy))
            && Sum(Dues(p, ts, policy)) == Sum(Dues(p, once, policy))
  {
    FundingTelescopes(p, ts, policy);
    FundingTelescopes(p, [ts[|ts| - 1]], policy);
  }

  /** So many calls and a single one at the last time charge the same, up to half a unit a charging
      call, and leave the same anchor. */
  lemma ManyCallsChargeAsOne(p: Position, mark: int, ts: seq<int>, policy: Policy)
    requires policy.fundingIntervalMinutes > 0 && Nondecreasing(ts) && ts != [] && ts[|ts| - 1] >= Anchor(p)
    ensures var once := [ts[|ts| - 1]];
            && Anchor(PositionAfter(p, ts, policy)) == Anchor(PositionAfter(p, once, policy))
            && Near(Charged(p, mark, ts, policy), Charged(p, mark, once, policy) as real,
                    Charging(Dues(p, ts, policy)) + Charging(Dues(p, once, policy)))
  {
    var once := [ts[|ts| - 1]];
    SameIntervals(p, ts, policy);
    ChargedIsSumRounded(p, mark, ts, policy);
    ChargedIsSumRounded(p, mark, once, policy);
    DuesNonNegative(p, ts, policy);
    DuesNonNegative(p, once, policy);
    TwoWaysNear(FundingPerInterval(p, mark, policy), Dues(p, ts, policy), Dues(p, once, policy));
  }

  // ----- the account --------------------------------------------------------------------------

  predicate Charges(policy: Policy) {
    policy.fundingFixedRate && policy.fundingRateBpsPerHour > 0.0 && policy.fundingIntervalMinutes > 0
  }

  /** What one pass charges the positions from the i-th on. */
  function DueFrom(ps: seq<Position>, i: nat, marks: Marks, now: int, policy: Policy): int
    requires i <= |ps|
    decreases |ps| - i
  {
    if i == |ps| then 0
    else Round(FundingDue(ps[i], MarkOf(marks, ps[i]), now, policy)) + DueFrom(ps, i + 1, marks, now, policy)
  }

  lemma {:induction false} DueFromSame(ps: seq<Position>, qs: seq<Position>, i: nat, marks: Marks, now: int,
                                       policy: Policy)
    requires |ps| == |qs| && i <= |ps| && forall k :: i <= k < |ps| ==> ps[k] == qs[k]
    ensures DueFrom(ps, i, marks, now, policy) == DueFrom(qs, i, marks, now, policy)
    decreases |ps| - i
  {
    if i < |ps| {
      DueFromSame(ps, qs, i + 1, marks, now, policy);
    }
  }

  /** One position of the loop: it is charged what is due, and its anchor moves. */
  lemma AccrueAtCharges(w: Progress, i: nat, marks: Marks, now: int, policy: Policy)
    requires i < |w.state.positions| && MarkOf(marks, w.state.positions[i]) > 0
    ensures var r := AccrueAt(w, i, marks, now, policy).state;
            var p := w.state.positions[i];
            && r.fundingAccruedUsd == w.state.fundingAccruedUsd + Round(FundingDue(p, MarkOf(marks, p), now, policy))
            && r.positions == w.state.positions[i := Advanced(p, now, policy)]
  {
    var p := w.state.positions[i];
    RoundFixesUnits(0);
    NothingDue(p, MarkOf(marks, p), now, policy);
    assert IntervalsDue(p, now, policy) <= 0 ==> w.state.positions[i := p] == w.state.positions;
  }

  lemma NothingDue(p: Position, mark: int, now: int, policy: Policy)
    ensures IntervalsDue(p, now, policy) == 0 ==> FundingDue(p, mark, now, policy) == 0.0
    ensures IntervalsDue(p, now, policy) >= 0
  {
    if IntervalMs(policy) > 0 && now > Anchor(p) {
      Division(now - Anchor(p), IntervalMs(policy));
    }
  }

  lemma {:induction false} AccrueFromCharges(w: Progress, i: nat, marks: Marks, now: int, policy: Policy)
    requires i <= |w.state.positions| && AllMarked(w.state.positions, marks)
    ensures var r := AccrueFrom(w, i, marks, now, policy).state;
            var ps := w.state.positions;
            && r.fundingAccruedUsd == w.state.fundingAccruedUsd + DueFrom(ps, i, marks, now, policy)
            && |r.positions| == |ps|
            && (forall k :: 0 <= k < |ps| ==> r.positions[k] == if k < i then ps[k] else Advanced(ps[k], now, policy))
    decreases |w.state.positions| - i
  {
    if i < |w.state.positions| {
      var ps := w.state.positions;
      var next := AccrueAt(w, i, marks, now, policy);
      AccrueAtCharges(w, i, marks, now, policy);
      forall p | p in next.state.positions ensures MarkOf(marks, p) > 0 {
        var k :| 0 <= k < |ps| && next.state.positions[k] == p;
        assert ps[k] in ps;
      }
      AccrueFromCharges(next, i + 1, marks, now, policy);
      DueFromSame(ps, next.state.positions, i + 1, marks, now, policy);
    }
  }

  /** The account after passes at the given times and constant marks. */
  function Passes(s: State, marks: Marks, ts: seq<int>, policy: Policy): State {
    if ts == [] then s else Accrue(Passes(s, marks, ts[..|ts| - 1], policy), marks, ts[|ts| - 1], policy).state
  }

  function ChargedFrom(ps: seq<Position>, i: nat, marks: Marks, ts: seq<int>, policy: Policy): int
    requires i <= |ps|
    decreases |ps| - i
  {
    if i == |ps| then 0
    else Charged(ps[i], MarkOf(marks, ps[i]), ts, policy) + ChargedFrom(ps, i + 1, marks, ts, policy)
  }

  /** How many charges were rounded. */
  function ChargingFrom(ps: seq<Position>, i: nat, ts: seq<int>, policy: Policy): nat
    requires i <= |ps|
    decreases |ps| - i
  {
    if i == |ps| then 0 else Charging(Dues(ps[i], ts, policy)) + ChargingFrom(ps, i + 1, ts, policy)
  }

  lemma {:induction false} SameSymbol(p: Position, ts: seq<int>, policy: Policy)
    ensures PositionAfter(p, ts, policy).symbol == p.symbol && PositionAfter(p, ts, policy).entryPrice == p.entryPrice
  {
    if ts != [] {
      SameSymbol(p, ts[..|ts| - 1], policy);
    }
  }

  /** One more pass adds what is due from the positions as the earlier ones left them. */
  lemma {:induction false} ChargedStep(ps: seq<Position>, qs: seq<Position>, i: nat, marks: Marks, ts: seq<int>,
                                       policy: Policy)
    requires ts != [] && |qs| == |ps| && i <= |ps|
    requires forall k :: 0 <= k < |ps| ==> qs[k] == PositionAfter(ps[k], ts[..|ts| - 1], policy)
    ensures ChargedFrom(ps, i, marks, ts, policy)
         == ChargedFrom(ps, i, marks, ts[..|ts| - 1], policy) + DueFrom(qs, i, marks, ts[|ts| - 1], policy)
    decreases |ps| - i
  {
    if i < |ps| {
      SameSymbol(ps[i], ts[..|ts| - 1], policy);
      ChargedStep(ps, qs, i + 1, marks, ts, policy);
    }
  }

  /** The account's funding column after any passes is what its positions were charged, and each has the
      anchor the passes give it. */
  lemma {:induction false} AccountCharged(s: State, marks: Marks, ts: seq<int>, policy: Policy)
    requires AllMarked(s.positions, marks) && Charges(policy)
    ensures var r := Passes(s, marks, ts, policy);
            && r.fundingAccruedUsd == s.fundingAccruedUsd + ChargedFrom(s.positions, 0, marks, ts, policy)
            && |r.positions| == |s.positions|
            && (forall k :: 0 <= k < |s.positions| ==> r.positions[k] == PositionAfter(s.positions[k], ts, policy))
  {
    if ts == [] {
      NothingCharged(s.positions, 0, marks, policy);
    } else {
      var init := ts[..|ts| - 1];
      AccountCharged(s, marks, init, policy);
      var before := Passes(s, marks, init, policy);
      forall p | p in before.positions ensures MarkOf(marks, p) > 0 {
        var k :| 0 <= k < |before.positions| && before.positions[k] == p;
        SameSymbol(s.positions[k], init, policy);
        assert s.positions[k] in s.positions;
      }
      AccrueFromCharges(Progress(before, false), 0, marks, ts[|ts| - 1], policy);
      ChargedStep(s.positions, before.positions, 0, marks, ts, policy);
    }
  }

  lemma {:induction false} NothingCharged(ps: seq<Position>, i: nat, marks: Marks, policy: Policy)
    requires i <= |ps|
    ensures ChargedFrom(ps, i, marks, [], policy) == 0
    decreases |ps| - i
  {
    if i < |ps| {
      NothingCharged(ps, i + 1, marks, policy);
    }
  }

  lemma {:induction false} AllChargeAsOne(ps: seq<Position>, i: nat, marks: Marks, ts: seq<int>, policy: Policy)
    requires i <= |ps| && Nondecreasing(ts) && ts != [] && policy.fundingIntervalMinutes > 0
    requires forall p :: p in ps ==> Anchor(p) <= ts[|ts| - 1]
    ensures var once := [ts[|ts| - 1]];
            Near(ChargedFrom(ps, i, marks, ts, policy), ChargedFrom(ps, i, marks, once, policy) as real,
                 ChargingFrom(ps, i, ts, policy) + ChargingFrom(ps, i, once, policy))
    decreases |ps| - i
  {
    if i < |ps| {
      var p, mark, once := ps[i], MarkOf(marks, ps[i]), [ts[|ts| - 1]];
      assert p in ps;
      ManyCallsChargeAsOne(p, mark, ts, policy);
      AllChargeAsOne(ps, i + 1, marks, ts, policy);
      NearSum(Charged(p, mark, ts, policy), Charged(p, mark, once, policy),
              Charging(Dues(p, ts, policy)) + Charging(Dues(p, once, policy)),
              ChargedFrom(ps, i + 1, marks, ts, policy), ChargedFrom(ps, i + 1, marks, once, policy),
              ChargingFrom(ps, i + 1, ts, policy) + ChargingFrom(ps, i + 1, once, policy));
    }
  }

  lemma NearSum(a: int, b: int, n: nat, c: int, d: int, m: nat)
    requires Near(a, b as real, n) && Near(c, d as real, m)
    ensures Near(a + c, (b + d) as real, n + m)
  {
  }

  /** Many passes at constant marks leave the funding column of one pass at the last time, up to half a
      unit for every charge that was rounded, and the same anchors. */
  lemma ManyPassesChargeAsOne(s: State, marks: Marks, ts: seq<int>, policy: Policy)
    requires AllMarked(s.positions, marks) && Charges(policy) && Nondecreasing(ts) && ts != []
    requires forall p :: p in s.positions ==> Anchor(p) <= ts[|ts| - 1]
    ensures var once := [ts[|ts| - 1]];
            var many, one := Passes(s, marks, ts, policy), Passes(s, marks, once, policy);
            && Near(many.fundingAccruedUsd, one.fundingAccruedUsd as real,
                    ChargingFrom(s.positions, 0, ts, policy) + ChargingFrom(s.positions, 0, once, policy))
            && |many.positions| == |one.positions|
            && forall k :: 0 <= k < |many.positions| ==> Anchor(many.positions[k]) == Anchor(one.positions[k])
  {
    var once := [ts[|ts| - 1]];
    AccountCharged(s, marks, ts, policy);
    AccountCharged(s, marks, once, policy);
    AllChargeAsOne(s.positions, 0, marks, ts, policy);
    forall k | 0 <= k < |s.positions|
      ensures Anchor(PositionAfter(s.positions[k], ts, policy)) == Anchor(PositionAfter(s.positions[k], once, policy))
    {
      assert s.positions[k] in s.positions;
      ManyCallsChargeAsOne(s.positions[k], 0, ts, policy);
    }
  }
}
