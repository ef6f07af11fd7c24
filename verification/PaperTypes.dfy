/** The records of the paper trading account (apps/api/src/trading.ts:257-316) and its policy
    (packages/futures-exchange/src/core/paper-runtime.ts:40-55). */
module PaperTypes {
  import opened Wrappers

  type Symbol = string
  type Marks = map<Symbol, int>

  datatype Side = Buy | Sell
  datatype Direction = Long | Short
  datatype Kind = Market | Limit
  datatype Status = Open | Filled | Cancelled

  /** `fundedAt` is lastFundingAccruedAt, `openedAt` the time the position was opened, in milliseconds. */
  datatype Position = Position(symbol: Symbol, direction: Direction, qty: int, entryPrice: int,
                               takeProfit: Option<int>, stopLoss: Option<int>,
                               fundedAt: Option<int>, openedAt: int)

  /** `id` is the sequence number an order id is printed from. */
  datatype Order = Order(id: int, symbol: Symbol, side: Side, kind: Kind, qty: int, price: int,
                         reduceOnly: bool, trigger: Option<int>,
                         takeProfit: Option<int>, stopLoss: Option<int>, status: Status,
                         originalQty: int, filledQty: int, remainingQty: int,
                         averageFillPrice: Option<int>, feeUsd: int, fillCount: int)

  datatype State = State(balanceUsd: int, realizedPnlUsd: int, feesPaidUsd: int, fundingAccruedUsd: int,
                         totalVolumeUsd: int, liquidationCount: int, nextOrderSeq: int,
                         positions: seq<Position>, orders: seq<Order>)

  datatype Policy = Policy(makerFeeBps: real, takerFeeBps: real,
                           marketSlippageBps: real, stopSlippageBps: real, liquidationSlippageBps: real,
                           limitPartialFillRatio: real, initialMarginRatio: real, maintenanceMarginRatio: real,
                           fundingFixedRate: bool, fundingRateBpsPerHour: real, fundingIntervalMinutes: int)

  predicate FeesOk(policy: Policy) {
    policy.makerFeeBps >= 0.0 && policy.takerFeeBps >= 0.0
  }

  predicate SlippageOk(bps: real) {
    0.0 <= bps < 10000.0
  }

  predicate MarginsOk(policy: Policy) {
    0.0 < policy.maintenanceMarginRatio <= policy.initialMarginRatio
  }

  predicate PolicyOk(policy: Policy) {
    && FeesOk(policy)
    && SlippageOk(policy.marketSlippageBps) && SlippageOk(policy.stopSlippageBps)
    && SlippageOk(policy.liquidationSlippageBps)
    && MarginsOk(policy) && policy.fundingIntervalMinutes > 0
  }

  predicate MarksOk(marks: Marks) {
    forall s :: s in marks ==> marks[s] > 0
  }

  function Opposite(direction: Direction): Side {
    if direction.Long? then Sell else Buy
  }

  /** A missing mark falls back to the position's own entry price. */
  function MarkOf(marks: Marks, p: Position): int {
    if p.symbol in marks then marks[p.symbol] else p.entryPrice
  }

  /** Every position has a mark above zero, or an entry price in its place. */
  predicate AllMarked(ps: seq<Position>, marks: Marks) {
    forall p :: p in ps ==> MarkOf(marks, p) > 0
  }

  function ToPositive(x: Option<int>): Option<int> {
    if x.Some? && x.value > 0 then x else None
  }

  /** positionBySymbol: the first row of the symbol. */
  function Find(ps: seq<Position>, symbol: Symbol): (r: Option<Position>)
    ensures r.Some? ==> r.value in ps && r.value.symbol == symbol
    ensures r.None? ==> forall p :: p in ps ==> p.symbol != symbol
  {
    if ps == [] then None
    else if ps[0].symbol == symbol then Some(ps[0])
    else Find(ps[1..], symbol)
  }

  /** The rows of every other symbol, in order. */
  function Without(ps: seq<Position>, symbol: Symbol): (r: seq<Position>)
    ensures forall p :: p in r <==> p in ps && p.symbol != symbol
    ensures |r| <= |ps|
  {
    if ps == [] then []
    else if ps[0].symbol == symbol then Without(ps[1..], symbol)
    else
      var r := [ps[0]] + Without(ps[1..], symbol);
      assert forall p :: p in ps <==> p == ps[0] || p in ps[1..];
      r
  }

  function AsList(p: Option<Position>): seq<Position> {
    if p.Some? then [p.value] else []
  }

  /** replacePosition */
  function Replace(ps: seq<Position>, symbol: Symbol, next: Option<Position>): seq<Position> {
    Without(ps, symbol) + AsList(next)
  }

  ghost predicate UniqueSymbols(ps: seq<Position>) {
    forall i, j :: 0 <= i < j < |ps| ==> ps[i].symbol != ps[j].symbol
  }

  lemma {:induction false} WithoutKeepsUnique(ps: seq<Position>, symbol: Symbol)
    requires UniqueSymbols(ps)
    ensures UniqueSymbols(Without(ps, symbol))
  {
    if ps != [] {
      WithoutKeepsUnique(ps[1..], symbol);
      var rest := Without(ps[1..], symbol);
      forall j | 0 <= j < |rest| ensures rest[j].symbol != ps[0].symbol {
        assert rest[j] in ps[1..];
      }
    }
  }

  /** In a list with one row per symbol, Find finds the row. */
  lemma {:induction false} FindUnique(ps: seq<Position>, i: nat)
    requires UniqueSymbols(ps) && i < |ps|
    ensures Find(ps, ps[i].symbol) == Some(ps[i])
  {
    if i > 0 {
      FindUnique(ps[1..], i - 1);
    }
  }

  lemma {:induction false} FindSkips(ps: seq<Position>, gone: Symbol, symbol: Symbol)
    ensures Find(Without(ps, gone), symbol) == if symbol == gone then None else Find(ps, symbol)
  {
    if ps != [] {
      FindSkips(ps[1..], gone, symbol);
    }
  }

  lemma {:induction false} FindInConcat(a: seq<Position>, b: seq<Position>, symbol: Symbol)
    ensures Find(a + b, symbol) == if Find(a, symbol).Some? then Find(a, symbol) else Find(b, symbol)
  {
    if a == [] {
      assert a + b == b;
    } else {
      assert (a + b)[1..] == a[1..] + b;
      FindInConcat(a[1..], b, symbol);
    }
  }

  /** Replacing a position is exactly a table update: one row per symbol stays one row per symbol,
      the symbol now reads `next`, every other symbol reads what it read. */
  lemma ReplaceIsUpdate(ps: seq<Position>, symbol: Symbol, next: Option<Position>)
    requires UniqueSymbols(ps) && (next.Some? ==> next.value.symbol == symbol)
    ensures UniqueSymbols(Replace(ps, symbol, next))
    ensures forall t :: Find(Replace(ps, symbol, next), t) == if t == symbol then next else Find(ps, t)
  {
    WithoutKeepsUnique(ps, symbol);
    var rest := Without(ps, symbol);
    assert forall k :: 0 <= k < |rest| ==> rest[k] in rest;
    forall t ensures Find(Replace(ps, symbol, next), t) == if t == symbol then next else Find(ps, t) {
      FindSkips(ps, symbol, t);
      FindInConcat(Without(ps, symbol), AsList(next), t);
    }
  }
}
