/** The mark-to-market identity: over any fills on a symbol, realized profit plus the open
    position's profit at a mark is what every traded unit earned from its price to that mark. */
module MarkToMarket {
  import opened Wrappers
  import opened FixedPoint
  import opened PaperTypes
  import opened Fills

  datatype Trade = Trade(side: Side, qty: int, price: int, reduceOnly: bool, at: int)

  predicate Tradable(ts: seq<Trade>) {
    forall t :: t in ts ==> t.qty > 0
  }

  function Apply(current: Option<Position>, symbol: Symbol, t: Trade): Outcome {
    ApplyFill(current, symbol, t.qty, t.side, t.reduceOnly, t.price, t.at)
  }

  function DeltaOf(current: Option<Position>, t: Trade): int {
    EffectiveDelta(Signed(current), t.side, t.qty, t.reduceOnly)
  }

  /** Adding in the held direction: nothing is realized, the entry price is averaged. */
  lemma AddingStep(held: int, delta: int, entry: int, price: int, mark: int)
    requires held != 0 && Sign(held) == Sign(delta)
    ensures var e := Round((entry * Abs(held) + price * Abs(delta)) as real / (Abs(held) + Abs(delta)) as real);
            var err := Value(held + delta, mark - e) - (Value(held, mark - entry) + Value(delta, mark - price));
            var bound := Abs(held + delta) as real / SCALE / 2.0;
            -bound <= err <= bound
  {
    var n := entry * Abs(held) + price * Abs(delta);
    var d := Abs(held) + Abs(delta);
    var e := Round(n as real / d as real);
    RoundedQuotient(n, d);
    AddingAlgebra(held, delta, entry, price, mark, e);
    var gap := if held > 0 then n - d * e else d * e - n;
    assert Value(held + delta, mark - e) - (Value(held, mark - entry) + Value(delta, mark - price))
      == gap as real / SCALE;
  }

  lemma AddingAlgebra(held: int, delta: int, entry: int, price: int, mark: int, e: int)
    requires held != 0 && Sign(held) == Sign(delta)
    ensures var n := entry * Abs(held) + price * Abs(delta);
            var d := Abs(held) + Abs(delta);
            (held + delta) * (mark - e) - (held * (mark - entry) + delta * (mark - price))
              == if held > 0 then n - d * e else d * e - n
  {
  }

  /** Reducing, closing or flipping: what is closed is realized, the rest keeps its price
      (or, after a flip, takes the fill's price). */
  lemma ClosingStep(held: int, delta: int, entry: int, price: int, mark: int)
    requires held != 0 && Sign(held) == -Sign(delta)
    ensures var closed := Min(Abs(held), Abs(delta));
            var perUnit := if held > 0 then price - entry else entry - price;
            var e := if Sign(held + delta) == Sign(held) then entry else price;
            Value(closed, perUnit) + Value(held + delta, mark - e)
              == Value(held, mark - entry) + Value(delta, mark - price)
  {
    var closed := Min(Abs(held), Abs(delta));
    var perUnit := if held > 0 then price - entry else entry - price;
    var e := if Sign(held + delta) == Sign(held) then entry else price;
    assert closed * perUnit + (held + delta) * (mark - e) == held * (mark - entry) + delta * (mark - price);
  }

  /** What one fill books and leaves open, beyond what was open and what the traded units earned. */
  function FillError(current: Option<Position>, symbol: Symbol, t: Trade, mark: int): real {
    var out := Apply(current, symbol, t);
    out.realizedPnl as real + OpenPnl(out.next, mark)
    - (OpenPnl(current, mark) + Value(DeltaOf(current, t), mark - t.price))
  }

  lemma OpeningFill(symbol: Symbol, t: Trade, mark: int)
    requires t.qty > 0
    ensures FillError(None, symbol, t, mark) == 0.0
  {
    RoundFixesUnits(t.price);
    RoundFixesUnits(0);
  }

  /** What a fill in the held direction computes. */
  lemma AddingShape(current: Option<Position>, symbol: Symbol, t: Trade)
    requires Held(current) && current.Some? && t.qty > 0 && !t.reduceOnly
    requires Sign(Signed(current)) == Sign(Delta(t.side, t.qty))
    ensures var out := Apply(current, symbol, t);
            var held := Signed(current);
            var delta := DeltaOf(current, t);
            && out.realizedPnl == 0 && out.next.Some? && Signed(out.next) == held + delta
            && out.next.value.entryPrice
               == Round((current.value.entryPrice * Abs(held) + t.price * Abs(delta)) as real
                         / (Abs(held) + Abs(delta)) as real)
  {
    RoundFixesUnits(0);
  }

  lemma AddingFill(current: Option<Position>, symbol: Symbol, t: Trade, mark: int)
    requires Held(current) && current.Some? && t.qty > 0
    requires Sign(Signed(current)) == Sign(Delta(t.side, t.qty))
    ensures -FillDrift(Apply(current, symbol, t).next) <= FillError(current, symbol, t, mark)
    ensures FillError(current, symbol, t, mark) <= FillDrift(Apply(current, symbol, t).next)
  {
    RoundFixesUnits(0);
    if !t.reduceOnly {
      AddingShape(current, symbol, t);
      AddingStep(Signed(current), DeltaOf(current, t), current.value.entryPrice, t.price, mark);
    }
  }

  /** What a reducing, closing or flipping fill computes. */
  lemma ClosingShape(current: Option<Position>, symbol: Symbol, t: Trade)
    requires Held(current) && current.Some? && t.qty > 0
    requires Sign(Signed(current)) == -Sign(Delta(t.side, t.qty))
    ensures var out := Apply(current, symbol, t);
            var held := Signed(current);
            var delta := DeltaOf(current, t);
            && Sign(held) == -Sign(delta)
            && out.realizedPnl == Round(Value(Min(Abs(held), Abs(delta)),
                                              if held > 0 then t.price - current.value.entryPrice
                                              else current.value.entryPrice - t.price))
            && Signed(out.next) == held + delta
            && (out.next.Some?
                ==> out.next.value.entryPrice == if Sign(held + delta) == Sign(held) then current.value.entryPrice
                                                 else t.price)
  {
    RoundFixesUnits(t.price);
    RoundFixesUnits(current.value.entryPrice);
  }

  lemma ClosingFill(current: Option<Position>, symbol: Symbol, t: Trade, mark: int)
    requires Held(current) && current.Some? && t.qty > 0
    requires Sign(Signed(current)) == -Sign(Delta(t.side, t.qty))
    ensures -0.5 <= FillError(current, symbol, t, mark) <= 0.5
  {
    ClosingShape(current, symbol, t);
    ClosingSum(Apply(current, symbol, t), Signed(current), DeltaOf(current, t), current.value.entryPrice, t.price,
               mark);
  }

  lemma ClosingSum(out: Outcome, held: int, delta: int, entry: int, price: int, mark: int)
    requires held != 0 && Sign(held) == -Sign(delta) && Signed(out.next) == held + delta
    requires out.realizedPnl
            == Round(Value(Min(Abs(held), Abs(delta)), if held > 0 then price - entry else entry - price))
    requires out.next.Some? ==> out.next.value.entryPrice == if Sign(held + delta) == Sign(held) then entry else price
    ensures -0.5
            <= out.realizedPnl as real + OpenPnl(out.next, mark)
               - (Value(held, mark - entry) + Value(delta, mark - price))
            <= 0.5
  {
    ClosingStep(held, delta, entry, price, mark);
  }

  /** One fill, any kind, any mark. */
  lemma FillStep(current: Option<Position>, symbol: Symbol, t: Trade, mark: int)
    requires Held(current) && t.qty > 0
    ensures -FillDrift(Apply(current, symbol, t).next) <= FillError(current, symbol, t, mark)
    ensures FillError(current, symbol, t, mark) <= FillDrift(Apply(current, symbol, t).next)
  {
    if current.None? {
      OpeningFill(symbol, t, mark);
    } else if Sign(Signed(current)) == Sign(Delta(t.side, t.qty)) {
      AddingFill(current, symbol, t, mark);
    } else {
      ClosingFill(current, symbol, t, mark);
    }
  }

  datatype Tally = Tally(position: Option<Position>, realized: int, earned: real, drift: real)

  /** Folds fills over a position: realized amount booked, what each traded unit earned up to `mark`,
      and the rounding error allowed. */
  function Run(start: Tally, symbol: Symbol, ts: seq<Trade>, mark: int): Tally {
    if ts == [] then start
    else
      var before := Run(start, symbol, ts[..|ts| - 1], mark);
      var t := ts[|ts| - 1];
      var out := Apply(before.position, symbol, t);
      Tally(out.next, before.realized + out.realizedPnl,
            before.earned + Value(DeltaOf(before.position, t), mark - t.price),
            before.drift + FillDrift(out.next))
  }

  function FromFlat(symbol: Symbol, ts: seq<Trade>, mark: int): Tally {
    Run(Tally(None, 0, 0.0, 0.0), symbol, ts, mark)
  }

  lemma {:induction false} TradesStayHeld(symbol: Symbol, ts: seq<Trade>, mark: int)
    requires Tradable(ts)
    ensures Held(FromFlat(symbol, ts, mark).position)
  {
    if ts != [] {
      var t := ts[|ts| - 1];
      TradesStayHeld(symbol, ts[..|ts| - 1], mark);
      FillKeepsHeld(FromFlat(symbol, ts[..|ts| - 1], mark).position, symbol, t.qty, t.side, t.reduceOnly, t.price,
                    t.at);
    }
  }

  /** The identity over any sequence of fills on a symbol and for every mark. */
  lemma {:induction false} MarkToMarketIdentity(symbol: Symbol, ts: seq<Trade>, mark: int)
    requires Tradable(ts)
    ensures var end := FromFlat(symbol, ts, mark);
            -end.drift <= end.realized as real + OpenPnl(end.position, mark) - end.earned <= end.drift
  {
    if ts != [] {
      var before := ts[..|ts| - 1];
      MarkToMarketIdentity(symbol, before, mark);
      TradesStayHeld(symbol, before, mark);
      FillStep(FromFlat(symbol, before, mark).position, symbol, ts[|ts| - 1], mark);
    }
  }
}
