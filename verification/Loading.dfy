/** Reading an account back from storage: coercePaperState on a record whose fields are present
    and numeric, and the slice that savePaperState writes. */
module Loading {
  import opened Wrappers
  import opened FixedPoint
  import opened PaperTypes
  import opened Orders

  const MAX_ORDERS := 200

  function CoercePosition(p: Position): Position {
    p.(qty := Abs(p.qty), takeProfit := ToPositive(p.takeProfit), stopLoss := ToPositive(p.stopLoss))
  }

  function CoercePositions(ps: seq<Position>): seq<Position> {
    if ps == [] then []
    else if ps[0].symbol == "" || Abs(ps[0].qty) <= 0 || ps[0].entryPrice <= 0 then CoercePositions(ps[1..])
    else [CoercePosition(ps[0])] + CoercePositions(ps[1..])
  }

  function CoerceOrder(o: Order): Order {
    o.(qty := Abs(o.qty), trigger := ToPositive(o.trigger),
       takeProfit := ToPositive(o.takeProfit), stopLoss := ToPositive(o.stopLoss),
       originalQty := Abs(o.originalQty), filledQty := Max(0, o.filledQty), remainingQty := Max(0, o.remainingQty),
       averageFillPrice := ToPositive(o.averageFillPrice), feeUsd := Max(0, o.feeUsd), fillCount := Max(0, o.fillCount))
  }

  function CoerceOrders(os: seq<Order>): seq<Order> {
    if os == [] then []
    else if os[0].symbol == "" || Abs(os[0].qty) <= 0 || os[0].price <= 0 then CoerceOrders(os[1..])
    else [CoerceOrder(os[0])] + CoerceOrders(os[1..])
  }

  function Newest(os: seq<Order>): seq<Order> {
    if |os| > MAX_ORDERS then os[..MAX_ORDERS] else os
  }

  /** coercePaperState */
  function Coerce(s: State): State {
    State(Max(0, s.balanceUsd), s.realizedPnlUsd, Max(0, s.feesPaidUsd), s.fundingAccruedUsd,
          Max(0, s.totalVolumeUsd), Max(0, s.liquidationCount), Max(1, s.nextOrderSeq),
          CoercePositions(s.positions), Newest(CoerceOrders(s.orders)))
  }

  /** savePaperState */
  function Saved(s: State): State {
    s.(orders := Newest(s.orders))
  }

  predicate Positive(x: Option<int>) {
    x.Some? ==> x.value > 0
  }

  /** A well-formed position. A positive floor bounds entry prices too: every one is above zero, and
      a long's, which is what its sale is priced from when there is no mark, is at least the floor. */
  predicate PositionOk(p: Position, floor: nat) {
    && p.symbol != "" && p.qty > 0
    && (floor > 0 ==> p.entryPrice > 0 && (p.direction.Long? ==> p.entryPrice >= floor))
  }

  predicate ExitsPositive(p: Position) {
    Positive(p.takeProfit) && Positive(p.stopLoss)
  }

  predicate TriggersPositive(o: Order) {
    Positive(o.takeProfit) && Positive(o.stopLoss) && Positive(o.trigger)
  }

  ghost predicate IdsDescend(os: seq<Order>, next: int) {
    && (forall i, j :: 0 <= i < j < |os| ==> os[i].id > os[j].id)
    && (forall o :: o in os ==> o.id < next)
  }

  /** What every account at rest in storage satisfies: its shape with floor 0, and that its prices are
      real ones with a positive floor. */
  ghost predicate StoredOk(s: State, floor: nat) {
    && UniqueSymbols(s.positions)
    && (forall p :: p in s.positions ==> PositionOk(p, floor))
    && (forall o :: o in s.orders ==> OrderOk(o, floor) && o.symbol != "")
    && IdsDescend(s.orders, s.nextOrderSeq)
    && |s.orders| <= MAX_ORDERS
    && s.totalVolumeUsd >= 0 && s.liquidationCount >= 0 && s.nextOrderSeq >= 1
    && (floor > 0 ==> s.feesPaidUsd >= 0)
  }

  /** What an account satisfies besides while a call works on it: exit prices are positive or absent. */
  ghost predicate LoadedOk(s: State, floor: nat) {
    StoredOk(s, floor) && forall p :: p in s.positions ==> ExitsPositive(p)
  }

  /** No order carries an exit or trigger price that loading would forget. */
  ghost predicate OrdersCanonical(s: State) {
    forall o :: o in s.orders ==> TriggersPositive(o)
  }

  lemma {:induction false} CoercePositionsTwice(ps: seq<Position>)
    ensures CoercePositions(CoercePositions(ps)) == CoercePositions(ps)
    ensures forall p :: p in CoercePositions(ps) ==> PositionOk(p, 1) && ExitsPositive(p)
  {
    if ps != [] {
      CoercePositionsTwice(ps[1..]);
    }
  }

  lemma {:induction false} CoerceOrdersTwice(os: seq<Order>)
    ensures CoerceOrders(CoerceOrders(os)) == CoerceOrders(os)
  {
    if os != [] {
      CoerceOrdersTwice(os[1..]);
    }
  }

  lemma {:induction false} CoerceOrdersPrefix(os: seq<Order>, n: nat)
    requires n <= |os| && CoerceOrders(os) == os
    ensures CoerceOrders(os[..n]) == os[..n]
  {
    if n > 0 {
      CoerceOrdersLength(os[1..]);
      assert CoerceOrders(os[1..]) == os[1..] by {
        assert CoerceOrders(os)[1..] == os[1..];
      }
      CoerceOrdersPrefix(os[1..], n - 1);
      assert os[..n][1..] == os[1..][..n - 1];
      assert os[..n] == [os[0]] + os[1..][..n - 1];
    }
  }

  lemma {:induction false} CoerceOrdersLength(os: seq<Order>)
    ensures |CoerceOrders(os)| <= |os|
  {
    if os != [] {
      CoerceOrdersLength(os[1..]);
    }
  }

  /** Loading is idempotent, on any record at all. */
  lemma CoerceTwice(s: State)
    ensures Coerce(Coerce(s)) == Coerce(s)
  {
    CoercePositionsTwice(s.positions);
    CoerceOrdersTwice(s.orders);
    var os := CoerceOrders(s.orders);
    CoerceOrdersPrefix(os, |Newest(os)|);
    assert Newest(os) == os[..|Newest(os)|];
  }

  lemma {:induction false} CoercePositionsKeeps(ps: seq<Position>)
    requires forall p :: p in ps ==> PositionOk(p, 1)
    ensures |CoercePositions(ps)| == |ps|
    ensures forall i :: 0 <= i < |ps| ==> CoercePositions(ps)[i] == CoercePosition(ps[i])
  {
    if ps != [] {
      assert PositionOk(ps[0], 1);
      CoercePositionsKeeps(ps[1..]);
    }
  }

  lemma {:induction false} CoerceOrdersKeeps(os: seq<Order>)
    requires forall o :: o in os ==> OrderOk(o, 1) && o.symbol != ""
    ensures |CoerceOrders(os)| == |os|
    ensures forall i :: 0 <= i < |os| ==> CoerceOrders(os)[i] == CoerceOrder(os[i])
  {
    if os != [] {
      assert OrderOk(os[0], 1);
      CoerceOrdersKeeps(os[1..]);
    }
  }

  /** Every row loaded comes from a stored one ... */
  lemma {:induction false} LoadedPositionRows(ps: seq<Position>, floor: nat)
    requires forall p :: p in ps ==> PositionOk(p, floor)
    ensures forall p :: p in CoercePositions(ps) ==> PositionOk(p, floor) && p.entryPrice > 0 && ExitsPositive(p)
    ensures floor > 0 ==> |CoercePositions(ps)| == |ps|
  {
    if ps != [] {
      assert ps[0] in ps && forall q :: q in ps[1..] ==> q in ps;
      LoadedPositionRows(ps[1..], floor);
      assert PositionOk(ps[0], floor);
    }
  }

  lemma {:induction false} SymbolStaysAbsent(ps: seq<Position>, t: Symbol)
    requires forall p :: p in ps ==> p.symbol != t
    ensures forall p :: p in CoercePositions(ps) ==> p.symbol != t
  {
    if ps != [] {
      assert ps[0] in ps && forall q :: q in ps[1..] ==> q in ps;
      SymbolStaysAbsent(ps[1..], t);
    }
  }

  lemma UniqueCons(p: Position, rest: seq<Position>)
    requires UniqueSymbols(rest) && forall q :: q in rest ==> q.symbol != p.symbol
    ensures UniqueSymbols([p] + rest)
  {
    assert forall k :: 0 <= k < |rest| ==> rest[k] in rest;
  }

  lemma UniqueTail(ps: seq<Position>)
    requires ps != [] && UniqueSymbols(ps)
    ensures UniqueSymbols(ps[1..]) && forall q :: q in ps[1..] ==> q.symbol != ps[0].symbol
  {
  }

  /** ... and no symbol twice. */
  lemma {:induction false} LoadedSymbols(ps: seq<Position>)
    requires UniqueSymbols(ps)
    ensures UniqueSymbols(CoercePositions(ps))
  {
    if ps != [] {
      UniqueTail(ps);
      LoadedSymbols(ps[1..]);
      SymbolStaysAbsent(ps[1..], ps[0].symbol);
      UniqueCons(CoercePosition(ps[0]), CoercePositions(ps[1..]));
    }
  }

  lemma CoerceOrderOk(o: Order, floor: nat)
    requires OrderOk(o, floor)
    ensures OrderOk(CoerceOrder(o), floor) && TriggersPositive(CoerceOrder(o))
  {
  }

  /** Every row loaded comes from a stored one. */
  lemma {:induction false} LoadedOrderRows(os: seq<Order>, floor: nat)
    requires forall o :: o in os ==> OrderOk(o, floor) && o.symbol != ""
    ensures var r := CoerceOrders(os);
            forall o :: o in r ==> OrderOk(o, floor) && o.symbol != "" && TriggersPositive(o)
    ensures |CoerceOrders(os)| <= |os| && (floor > 0 ==> |CoerceOrders(os)| == |os|)
  {
    if os != [] {
      assert os[0] in os && forall q :: q in os[1..] ==> q in os;
      LoadedOrderRows(os[1..], floor);
      CoerceOrderOk(os[0], floor);
    }
  }

  lemma IdsTail(os: seq<Order>, next: int)
    requires os != [] && IdsDescend(os, next)
    ensures IdsDescend(os[1..], os[0].id) && os[0].id < next
  {
  }

  lemma IdsCons(o: Order, rest: seq<Order>, next: int)
    requires IdsDescend(rest, o.id) && o.id < next
    ensures IdsDescend([o] + rest, next)
  {
    assert forall k :: 0 <= k < |rest| ==> rest[k] in rest;
  }

  lemma IdsBelow(os: seq<Order>, next: int, bound: int)
    requires IdsDescend(os, next) && next <= bound
    ensures IdsDescend(os, bound)
  {
  }

  lemma {:induction false} LoadedOrderIds(os: seq<Order>, next: int)
    requires IdsDescend(os, next)
    ensures IdsDescend(CoerceOrders(os), next)
  {
    if os != [] {
      IdsTail(os, next);
      LoadedOrderIds(os[1..], os[0].id);
      IdsCons(CoerceOrder(os[0]), CoerceOrders(os[1..]), next);
      IdsBelow(CoerceOrders(os[1..]), os[0].id, next);
    }
  }

  /** Loading what the engine stored gives a loaded account: the balance is lifted to zero, prices
      that are not positive are forgotten, and with a positive floor no row is dropped. */
  lemma LoadStored(s: State, floor: nat)
    requires StoredOk(s, floor)
    ensures LoadedOk(Coerce(s), floor) && OrdersCanonical(Coerce(s))
    ensures forall p :: p in Coerce(s).positions ==> p.entryPrice > 0
    ensures floor > 0 ==> |Coerce(s).positions| == |s.positions| && |Coerce(s).orders| == |s.orders|
    ensures Coerce(s).balanceUsd == Max(0, s.balanceUsd)
  {
    LoadedPositionRows(s.positions, floor);
    LoadedSymbols(s.positions);
    LoadedOrderRows(s.orders, floor);
    LoadedOrderIds(s.orders, s.nextOrderSeq);
    var os := CoerceOrders(s.orders);
    assert forall o :: o in Newest(os) ==> o in os;
  }

  /** A loaded account with a non-negative balance survives saving and loading unchanged. */
  lemma SaveLoadRoundTrip(s: State)
    requires LoadedOk(s, 1) && OrdersCanonical(s) && s.balanceUsd >= 0
    ensures Coerce(Saved(s)) == s
  {
    CoercePositionsKeeps(s.positions);
    CoerceOrdersKeeps(s.orders);
    forall i | 0 <= i < |s.orders| ensures CoerceOrder(s.orders[i]) == s.orders[i] {
      assert s.orders[i] in s.orders;
    }
    forall i | 0 <= i < |s.positions| ensures CoercePosition(s.positions[i]) == s.positions[i] {
      assert s.positions[i] in s.positions;
    }
    assert CoerceOrders(s.orders) == s.orders;
    assert CoercePositions(s.positions) == s.positions;
  }
}
