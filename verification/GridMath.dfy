/** Grid arithmetic: order quantities that satisfy an exchange's constraints, and price levels. */
module GridMath {
  import opened Wrappers

  // ----- rounding -----------------------------------------------------------------------------

  const MICRO: real := 1000000.0

  /** The nearest integer, ties to the even one. */
  function RoundEven(x: real): int {
    var low := x.Floor;
    var d := x - low as real;
    if d < 0.5 || (d == 0.5 && low % 2 == 0) then low else low + 1
  }

  /** round6 */
  function Round6(x: real): real {
    RoundEven(x * MICRO) as real / MICRO
  }

  /** A whole number of millionths. */
  predicate IsMicro(x: real) {
    (x * MICRO).Floor as real == x * MICRO
  }

  lemma Round6Fixes(x: real)
    ensures Round6(x) == x <==> IsMicro(x)
  {
    assert Round6(x) * MICRO == RoundEven(x * MICRO) as real;
  }

  lemma Round6Monotone(x: real, y: real)
    requires x <= y
    ensures Round6(x) <= Round6(y)
  {
    assert x * MICRO <= y * MICRO;
    assert RoundEven(x * MICRO) <= RoundEven(y * MICRO);
  }

  lemma Round6Near(x: real)
    ensures -0.5 / MICRO <= Round6(x) - x <= 0.5 / MICRO
  {
  }

  // ----- steps --------------------------------------------------------------------------------

  /** ceil_to_step */
  function CeilToStep(value: real, step: real): real {
    if step <= 0.0 then value else Times(Ceil(value / step), step)
  }

  ghost predicate IsMultiple(q: real, step: real) {
    exists k: int :: q == Times(k, step)
  }

  function Times(k: int, step: real): real {
    k as real * step
  }

  lemma Scaled(a: real, b: real, s: real)
    requires s > 0.0
    ensures a <= b <==> a * s <= b * s
  {
    if a <= b { assert (b - a) * s >= 0.0; } else { assert (a - b) * s > 0.0; }
  }

  lemma CeilIsLeast(x: real, k: int)
    ensures x <= k as real <==> Ceil(x) <= k
    ensures x <= Ceil(x) as real
  {
  }

  /** The least multiple of the step that is not below the value. */
  lemma CeilToStepIsLeast(value: real, step: real)
    requires step > 0.0
    ensures IsMultiple(CeilToStep(value, step), step) && CeilToStep(value, step) >= value
    ensures forall q :: IsMultiple(q, step) && q >= value ==> CeilToStep(value, step) <= q
  {
    var x := value / step;
    assert x * step == value;
    CeilIsLeast(x, Ceil(x));
    Scaled(x, Ceil(x) as real, step);
    forall q | IsMultiple(q, step) && q >= value ensures CeilToStep(value, step) <= q {
      var k: int :| q == Times(k, step);
      MultipleNotBelow(x, k, step, value);
    }
  }

  lemma MultipleNotBelow(x: real, k: int, step: real, value: real)
    requires step > 0.0 && x * step == value && Times(k, step) >= value
    ensures Times(Ceil(x), step) <= Times(k, step)
  {
    Scaled(x, k as real, step);
    CeilIsLeast(x, k);
    Scaled(Ceil(x) as real, k as real, step);
  }

  // ----- quantities ---------------------------------------------------------------------------

  function Max(a: real, b: real): real {
    if a < b then b else a
  }

  function MaxInt(a: int, b: int): int {
    if a < b then b else a
  }

  predicate Positive(x: Option<real>) {
    x.Some? && x.value > 0.0
  }

  /** What an order has to satisfy; a constraint that is missing or not positive is not imposed. */
  datatype Constraints = Constraints(minQty: Option<real>, step: Option<real>, minNotional: Option<real>,
                                     mark: Option<real>, bufferSteps: int)

  datatype Checks = Checks(minQtyHit: bool, minNotionalHit: bool, roundedByStep: bool)

  /** The constraints once the minimum and the buffer of whole steps make one required notional. */
  datatype Limits = Limits(minQty: Option<real>, step: Option<real>, required: Option<real>, mark: Option<real>)

  function StepBuffer(c: Constraints): real {
    if Positive(c.step) && Positive(c.mark) then c.step.value * c.mark.value * MaxInt(0, c.bufferSteps) as real else 0.0
  }

  function LimitsOf(c: Constraints): Limits {
    Limits(c.minQty, c.step, if Positive(c.minNotional) then Some(c.minNotional.value + StepBuffer(c)) else None,
           c.mark)
  }

  /** The smallest quantity without regard to the step. */
  function Bound(raw: real, c: Limits): real {
    if c.required.Some? && Positive(c.mark) then Max(Base(raw, c), c.required.value / c.mark.value) else Base(raw, c)
  }

  function Base(raw: real, c: Limits): real {
    Max(Max(raw, 0.0), if Positive(c.minQty) then c.minQty.value else 0.0)
  }

  function Stepped(q: real, c: Limits): real {
    if c.step.Some? then CeilToStep(q, c.step.value) else q
  }

  /** The simple form: round the largest lower bound up to the step, once. */
  function Quantity(raw: real, c: Limits): real {
    Stepped(Bound(raw, c), c)
  }

  function Notional(q: real, mark: real): real {
    q * mark
  }

  predicate BelowNotional(q: real, c: Limits) {
    c.required.Some? && Positive(c.mark) && Notional(q, c.mark.value) < c.required.value
  }

  function AbsReal(x: real): real {
    if x < 0.0 then -x else x
  }

  predicate Moved(rounded: real, q: real) {
    AbsReal(rounded - q) > 0.000000000001
  }

  lemma NotionalBound(q: real, mark: real, required: real)
    requires mark > 0.0
    ensures Notional(q, mark) < required <==> q < required / mark
  {
    assert required / mark * mark == required;
    Scaled(required / mark, q, mark);
  }

  lemma CeilToStepMonotone(a: real, b: real, step: real)
    requires step > 0.0 && a <= b
    ensures CeilToStep(a, step) <= CeilToStep(b, step)
  {
    CeilToStepIsLeast(a, step);
    CeilToStepIsLeast(b, step);
  }

  lemma CeilToStepFixes(q: real, step: real)
    requires step > 0.0 && IsMultiple(q, step)
    ensures CeilToStep(q, step) == q
  {
    CeilToStepIsLeast(q, step);
  }

  /** Rounding up twice, with a larger bound in between, is rounding up once. */
  lemma RoundedTwice(q: real, needed: real, step: real)
    requires step > 0.0
    ensures CeilToStep(Max(CeilToStep(q, step), needed), step) == CeilToStep(Max(q, needed), step)
    ensures CeilToStep(q, step) >= needed ==> CeilToStep(Max(q, needed), step) == CeilToStep(q, step)
  {
    CeilToStepIsLeast(q, step);
    CeilToStepIsLeast(Max(q, needed), step);
    CeilToStepIsLeast(Max(CeilToStep(q, step), needed), step);
    CeilToStepMonotone(q, Max(q, needed), step);
  }

  /** compute_qty_for_constraints */
  method ComputeQty(raw: real, c: Constraints) returns (r: real, checks: Checks)
    ensures var l := LimitsOf(c);
            && r == Round6(Quantity(raw, l))
            && (checks.minQtyHit <==> Positive(c.minQty) && Max(raw, 0.0) < c.minQty.value)
            && (checks.minNotionalHit <==> BelowNotional(Stepped(Base(raw, l), l), l))
            && (checks.roundedByStep
                <==> Positive(c.step) && (checks.minNotionalHit || Moved(Stepped(Base(raw, l), l), Base(raw, l))))
  {
    checks := Checks(false, false, false);
    var qty := Max(raw, 0.0);
    if Positive(c.minQty) && qty < c.minQty.value {
      qty := c.minQty.value;
      checks := checks.(minQtyHit := true);
    }
    ghost var l := LimitsOf(c);
    assert qty == Base(raw, l);
    if Positive(c.step) {
      var rounded := CeilToStep(qty, c.step.value);
      if Moved(rounded, qty) {
        checks := checks.(roundedByStep := true);
      }
      qty := rounded;
    }
    assert qty == Stepped(Base(raw, l), l);
    var required := LimitsOf(c).required;
    RefinesQuantity(raw, l);
    if required.Some? && Positive(c.mark) && Notional(qty, c.mark.value) < required.value {
      var needed := required.value / c.mark.value;
      qty := Max(qty, needed);
      checks := checks.(minNotionalHit := true);
      if Positive(c.step) {
        qty := CeilToStep(qty, c.step.value);
        checks := checks.(roundedByStep := true);
      }
    }
    assert qty == Quantity(raw, l);
    r := Round6(qty);
  }

  /** What the second stage makes of the first. */
  lemma RefinesQuantity(raw: real, c: Limits)
    ensures var first := Stepped(Base(raw, c), c);
            Quantity(raw, c)
              == if BelowNotional(first, c) then Stepped(Max(first, c.required.value / c.mark.value), c) else first
  {
    if c.required.Some? && Positive(c.mark) {
      var needed := c.required.value / c.mark.value;
      NotionalBound(Stepped(Base(raw, c), c), c.mark.value, c.required.value);
      if Positive(c.step) {
        RoundedTwice(Base(raw, c), needed, c.step.value);
      }
    }
  }

  // ----- the least admissible quantity --------------------------------------------------------

  /** A quantity an order may have. */
  ghost predicate Admissible(q: real, raw: real, c: Limits) {
    && q >= 0.0 && q >= raw
    && (Positive(c.step) ==> IsMultiple(q, c.step.value))
    && (Positive(c.minQty) ==> q >= c.minQty.value)
    && !BelowNotional(q, c)
  }

  ghost predicate Least(r: real, raw: real, c: Limits) {
    Admissible(r, raw, c) && forall q :: Admissible(q, raw, c) ==> r <= q
  }

  lemma AdmissibleIsBound(q: real, raw: real, c: Limits)
    ensures Admissible(q, raw, c) <==> q >= Bound(raw, c) && (Positive(c.step) ==> IsMultiple(q, c.step.value))
  {
    if c.required.Some? && Positive(c.mark) {
      NotionalBound(q, c.mark.value, c.required.value);
    }
  }

  /** Before the final rounding the quantity is the least admissible one. */
  lemma QuantityIsLeast(raw: real, c: Limits)
    ensures Least(Quantity(raw, c), raw, c)
  {
    var r := Quantity(raw, c);
    if Positive(c.step) {
      CeilToStepIsLeast(Bound(raw, c), c.step.value);
    }
    AdmissibleIsBound(r, raw, c);
    forall q | Admissible(q, raw, c) ensures r <= q {
      AdmissibleIsBound(q, raw, c);
    }
  }

  lemma WholeTimes(k: int, step: real, m: int)
    requires step * MICRO == m as real
    ensures Times(k, step) * MICRO == (k * m) as real
  {
    assert k as real * (step * MICRO) == (k * m) as real;
  }

  lemma MultipleOfMicro(q: real, step: real)
    requires IsMicro(step) && IsMultiple(q, step)
    ensures IsMicro(q)
  {
    var k: int :| q == Times(k, step);
    WholeTimes(k, step, (step * MICRO).Floor);
    WholeIsMicro(q, k * (step * MICRO).Floor);
  }

  lemma WholeIsMicro(q: real, n: int)
    requires q * MICRO == n as real
    ensures IsMicro(q)
  {
  }

  /** With a step of whole millionths the result itself is the least admissible quantity. */
  lemma ResultIsLeast(raw: real, c: Limits)
    requires Positive(c.step) && IsMicro(c.step.value)
    ensures Least(Round6(Quantity(raw, c)), raw, c)
  {
    QuantityIsLeast(raw, c);
    MultipleOfMicro(Quantity(raw, c), c.step.value);
    Round6Fixes(Quantity(raw, c));
  }

  /** Feeding the result back returns it. */
  lemma ResultIsStable(raw: real, c: Limits)
    requires Positive(c.step) && IsMicro(c.step.value)
    ensures Round6(Quantity(Round6(Quantity(raw, c)), c)) == Round6(Quantity(raw, c))
  {
    var r := Round6(Quantity(raw, c));
    ResultIsLeast(raw, c);
    ResultIsLeast(r, c);
    assert Admissible(r, r, c);
  }

  ghost predicate StepIsSafe(step: real) {
    forall raw, c: Limits :: c.step == Some(step) ==> Least(Round6(Quantity(raw, c)), raw, c)
  }

  /** Whole millionths are exactly the steps with which the result is the least admissible quantity
      for every input: any other step is already lost when one step is asked for. */
  lemma StepIsSafeExactly(step: real)
    requires step > 0.0
    ensures StepIsSafe(step) <==> IsMicro(step)
  {
    if IsMicro(step) {
      forall raw, c: Limits | c.step == Some(step) ensures Least(Round6(Quantity(raw, c)), raw, c) {
        ResultIsLeast(raw, c);
      }
    } else {
      var c := Limits(None, Some(step), None, None);
      assert step == Times(1, step);
      CeilToStepFixes(step, step);
      QuantityIsLeast(step, c);
      Round6Fixes(step);
      assert !Least(Round6(Quantity(step, c)), step, c);
    }
  }
}
