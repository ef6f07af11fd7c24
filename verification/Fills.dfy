/** Applying one fill to the position of its symbol, and the mark-to-market identity it keeps. */
module Fills {
  import opened Wrappers
  import opened FixedPoint
  import opened PaperTypes

  datatype Outcome = Outcome(filledQty: int, realizedPnl: int, next: Option<Position>)

  function SignedQty(p: Position): int {
    if p.direction.Long? then Abs(p.qty) else -Abs(p.qty)
  }

  function Signed(p: Option<Position>): int {
    if p.Some? then SignedQty(p.value) else 0
  }

  function Delta(side: Side, qty: int): int {
    if side.Buy? then Abs(qty) else -Abs(qty)
  }

  /** The signed change a fill really makes: a reduce-only fill never opens and never flips. */
  function EffectiveDelta(held: int, side: Side, qty: int, reduceOnly: bool): int {
    var d := Delta(side, qty);
    if !reduceOnly then d
    else if held == 0 || Sign(held) == Sign(d) then 0
    else Sign(d) * Min(Abs(d), Abs(held))
  }

  function RealizedPnl(current: Option<Position>, delta: int, price: int): real {
    var held := Signed(current);
    if current.Some? && held != 0 && Sign(held) != Sign(delta) then
      var perUnit := if current.value.direction.Long? then price - current.value.entryPrice
                     else current.value.entryPrice - price;
      Value(Min(Abs(held), Abs(delta)), perUnit)
    else 0.0
  }

  /** Entry price of the position left by a fill, before rounding. */
  function NextEntry(current: Option<Position>, delta: int, price: int): real {
    var held := Signed(current);
    if current.None? || Sign(held) != Sign(held + delta) then price as real
    else if Abs(delta) > 0 && Sign(held) == Sign(delta) then
      (current.value.entryPrice * Abs(held) + price * Abs(delta)) as real / (Abs(held) + Abs(delta)) as real
    else current.value.entryPrice as real
  }

  /** applyPaperFill */
  function ApplyFill(current: Option<Position>, symbol: Symbol, qty: int, side: Side, reduceOnly: bool,
                     price: int, now: int): Outcome
  {
    var held := Signed(current);
    var d := Delta(side, qty);
    if reduceOnly && (held == 0 || Sign(held) == Sign(d)) then Outcome(0, 0, current)
    else
      var delta := EffectiveDelta(held, side, qty, reduceOnly);
      var realized := Round(RealizedPnl(current, delta, price));
      var next := held + delta;
      if next == 0 then Outcome(Abs(delta), realized, None)
      else
        Outcome(Abs(delta), realized,
                Some(Position(symbol, if next > 0 then Long else Short, Abs(next),
                              Round(NextEntry(current, delta, price)),
                              if current.Some? then current.value.takeProfit else None,
                              if current.Some? then current.value.stopLoss else None,
                              if current.Some? && current.value.fundedAt.Some? then current.value.fundedAt
                              else Some(now),
                              if current.Some? then current.value.openedAt else now)))
  }

  predicate Held(p: Option<Position>) {
    p.Some? ==> p.value.qty > 0
  }

  /** What a position is worth over its cost at a mark, exact. */
  function OpenPnl(p: Option<Position>, mark: int): real {
    if p.Some? then Value(SignedQty(p.value), mark - p.value.entryPrice) else 0.0
  }

  /** Largest rounding error one fill can introduce, in units: half a unit on the realized amount
      and half a unit of price on every coin left open. */
  function FillDrift(p: Option<Position>): real {
    (Abs(Signed(p)) as real / SCALE + 1.0) / 2.0
  }

  /** A fill leaves a position with a positive quantity, of the signed size it should have. */
  lemma FillKeepsHeld(current: Option<Position>, symbol: Symbol, qty: int, side: Side, reduceOnly: bool,
                      price: int, now: int)
    requires Held(current) && qty > 0
    ensures var out := ApplyFill(current, symbol, qty, side, reduceOnly, price, now);
            && Held(out.next)
            && Signed(out.next) == Signed(current) + EffectiveDelta(Signed(current), side, qty, reduceOnly)
            && out.filledQty == Abs(EffectiveDelta(Signed(current), side, qty, reduceOnly)) <= qty
            && (!reduceOnly ==> out.filledQty == qty)
            && (out.filledQty > 0 && out.next.Some? ==> out.next.value.symbol == symbol)
  {
  }

  /** The entry price it leaves is the held one, the fill's, or between the two. */
  lemma FillKeepsEntry(current: Option<Position>, symbol: Symbol, qty: int, side: Side, reduceOnly: bool,
                       price: int, now: int)
    requires Held(current) && qty > 0
    ensures var next := ApplyFill(current, symbol, qty, side, reduceOnly, price, now).next;
            next.Some? ==>
              || (current.Some? && next.value.direction == current.value.direction
                  && next.value.entryPrice >= Min(current.value.entryPrice, price)
                  && (next.value.direction.Long? != side.Buy? ==> next.value.entryPrice == current.value.entryPrice))
              || (next.value.entryPrice == price && next.value.direction.Long? == side.Buy?)
  {
    var held := Signed(current);
    var delta := EffectiveDelta(held, side, qty, reduceOnly);
    RoundFixesUnits(price);
    if current.Some? {
      RoundFixesUnits(current.value.entryPrice);
      if delta != 0 && Sign(held) == Sign(delta) {
        WeightedAtLeast(current.value.entryPrice, price, Abs(held), Abs(delta));
        RoundFixesUnits(Min(current.value.entryPrice, price));
        RoundMonotone(Min(current.value.entryPrice, price) as real, NextEntry(current, delta, price));
      }
    }
  }
}
