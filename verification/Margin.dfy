/** Account valuation and the gate that a fill increasing exposure must pass. */
module Margin {
  import opened Wrappers
  import opened FixedPoint
  import opened PaperTypes
  import opened Orders
  import opened Loading
  import Fills

  datatype Health = Healthy | MarginCall | Liquidation

  datatype Snapshot = Snapshot(equity: int, availableMargin: int, initialMarginUsed: int,
                               maintenanceMarginUsed: int, openOrderMarginUsed: int, unrealizedPnl: int,
                               status: Health)

  /** calculatePaperUnrealizedPnl: an unknown or non-positive mark counts as no profit. */
  function UnrealizedOf(p: Position, marks: Marks): int {
    if p.symbol !in marks || marks[p.symbol] <= 0 then 0
    else if p.direction.Long? then Round(Value(p.qty, marks[p.symbol] - p.entryPrice))
    else Round(Value(p.qty, p.entryPrice - marks[p.symbol]))
  }

  function Unrealized(ps: seq<Position>, marks: Marks): int {
    if ps == [] then 0 else UnrealizedOf(ps[0], marks) + Unrealized(ps[1..], marks)
  }

  function ExposureOf(p: Position, marks: Marks): real {
    var mark := MarkOf(marks, p);
    Value(p.qty, if mark > 0 then mark else p.entryPrice)
  }

  function Exposure(ps: seq<Position>, marks: Marks): real {
    if ps == [] then 0.0 else ExposureOf(ps[0], marks) + Exposure(ps[1..], marks)
  }

  function OrderMarginOf(o: Order, ratio: real): real {
    if !o.status.Open? || o.reduceOnly then 0.0 else Value(Remaining(o), o.price) * ratio
  }

  function OrderMargin(os: seq<Order>, ratio: real): real {
    if os == [] then 0.0 else OrderMarginOf(os[0], ratio) + OrderMargin(os[1..], ratio)
  }

  /** buildPaperAccountSnapshot */
  function Valuation(s: State, marks: Marks, policy: Policy): Snapshot {
    Appraise(s.balanceUsd, Unrealized(s.positions, marks), Exposure(s.positions, marks),
             OrderMargin(s.orders, policy.initialMarginRatio), policy)
  }

  function MarginOn(exposure: real, ratio: real): real {
    exposure * ratio
  }

  /** Due for liquidation: the equity does not exceed the maintenance margin by more than a unit. */
  predicate Due(equity: int, maintenance: real) {
    equity as real <= maintenance + 1.0
  }

  /** The snapshot of its four sums. */
  function Appraise(balance: int, unrealized: int, exposure: real, pledged: real, policy: Policy): Snapshot {
    var initial := MarginOn(exposure, policy.initialMarginRatio);
    var maintenance := MarginOn(exposure, policy.maintenanceMarginRatio);
    var equity := balance + unrealized;
    var available := Round(equity as real - initial - pledged);
    Snapshot(equity, available, Round(initial), Round(maintenance), Round(pledged), unrealized,
             if Due(equity, maintenance) then Liquidation
             else if available <= 0 then MarginCall
             else Healthy)
  }

  /** The gate's marks: the fill price for its own symbol, the entry price for every other. */
  function GateMarks(ps: seq<Position>, symbol: Symbol, price: int): Marks {
    if ps == [] then map[]
    else
      var p := ps[|ps| - 1];
      GateMarks(ps[..|ps| - 1], symbol, price)[p.symbol := if p.symbol == symbol then price else p.entryPrice]
  }

  predicate Increases(current: Option<Position>, next: Option<Position>) {
    var held := Fills.Signed(current);
    var left := Fills.Signed(next);
    Abs(left) > Abs(held) || (held != 0 && left != 0 && Sign(held) != Sign(left))
  }

  /** The account the gate imagines: the fee is paid and the position replaced, and it is re-read
      as if from storage; a realized loss is not charged. */
  function Imagined(s: State, symbol: Symbol, next: Option<Position>, feeUsd: int): State {
    Coerce(s.(balanceUsd := s.balanceUsd - feeUsd, positions := Replace(s.positions, symbol, next)))
  }

  predicate Passes(v: Snapshot) {
    v.availableMargin >= -1 && !v.status.Liquidation?
  }

  /** canApplyPaperEntryFill */
  predicate GateOpens(s: State, symbol: Symbol, next: Option<Position>, price: int, feeUsd: int, policy: Policy) {
    if !Increases(Find(s.positions, symbol), next) then true
    else
      var imagined := Imagined(s, symbol, next, feeUsd);
      Passes(Valuation(imagined, GateMarks(imagined.positions, symbol, price), policy))
  }
}
