/** Signal-to-target sizing (execution/sizing.py) and the order intent built from it (execution/models.py). */
module Sizing {
  import opened Results
  import opened Models
  import opened Positions

  datatype Direction = Long | Short | Flat
  datatype SizingMode = FixedQuantity | FixedNotional

  datatype SizingConfiguration = SizingConfiguration(mode: SizingMode, targetValue: real, step: Option<real>)

  predicate ValidSizing(c: SizingConfiguration) {
    c.targetValue > 0.0 && (c.step.Some? ==> c.step.value > 0.0)
  }

  datatype NoAction = RoundedTargetZero | TargetAlreadyReached

  datatype SizingResult = SizingResult(target: real, current: real, delta: real, side: Option<Side>, reference: real,
                                       reason: Option<NoAction>)
  {
    predicate IsNoAction() {
      delta == 0.0
    }
  }

  function Steps(units: int, step: real): real {
    units as real * step
  }

  /** Whole steps of the magnitude, with the sign of the quantity. */
  function RoundDownAbsolute(quantity: real, step: Option<real>): real
    requires step.Some? ==> step.value > 0.0
  {
    if step.None? then quantity
    else
      var rounded := Steps((Abs(quantity) / step.value).Floor, step.value);
      if quantity < 0.0 then -rounded else rounded
  }

  function DirectionSign(d: Direction): real {
    match d
    case Long => 1.0
    case Short => -1.0
    case Flat => 0.0
  }

  /** The signed quantity before rounding. */
  function Unrounded(d: Direction, reference: real, c: SizingConfiguration): real
    requires ValidSizing(c) && reference > 0.0
  {
    DirectionSign(d) * (if c.mode == FixedQuantity then c.targetValue else c.targetValue / reference)
  }

  function SizeSignal(d: Direction, current: real, reference: real, c: SizingConfiguration): Result<SizingResult, Error>
    requires ValidSizing(c)
  {
    if reference <= 0.0 then Failure(BadReference)
    else
      var target := RoundDownAbsolute(Unrounded(d, reference, c), c.step);
      var delta := target - current;
      var reason := if d != Flat && target == 0.0 then Some(RoundedTargetZero)
                    else if delta == 0.0 then Some(TargetAlreadyReached) else None;
      var side := if delta == 0.0 then None else if delta > 0.0 then Some(Buy) else Some(Sell);
      Success(SizingResult(target, current, delta, side, reference, reason))
  }

  /** The sign and size rules of `OrderIntent.__post_init__`. */
  predicate IntentAgrees(side: Side, quantity: real, delta: real) {
    quantity > 0.0 && Sign(side) * delta > 0.0 && Abs(delta) == quantity
  }

  lemma RoundingLaw(quantity: real, step: Option<real>)
    requires step.Some? ==> step.value > 0.0
    ensures var r := RoundDownAbsolute(quantity, step);
            && Abs(r) <= Abs(quantity)
            && (quantity > 0.0 ==> r >= 0.0) && (quantity < 0.0 ==> r <= 0.0) && (quantity == 0.0 ==> r == 0.0)
            && (step.None? ==> r == quantity)
            && (step.Some? ==> Abs(quantity) < Abs(r) + step.value)
            && (step.Some? ==> exists units :: r == Steps(units, step.value))
  {
    if step.Some? {
      var s, units := step.value, (Abs(quantity) / step.value).Floor;
      WholeSteps(Abs(quantity), s);
      assert Steps(-units, s) == -Steps(units, s);
      assert RoundDownAbsolute(quantity, step) == Steps(if quantity < 0.0 then -units else units, s);
    }
  }

  lemma WholeSteps(a: real, s: real)
    requires a >= 0.0 && s > 0.0
    ensures var n := Steps((a / s).Floor, s); 0.0 <= n <= a < n + s
    ensures a == 0.0 ==> Steps((a / s).Floor, s) == 0.0
  {
    var q := a / s;
    var low := q.Floor as real;
    var d, n := (q - low) * s, low * s;
    PartStep(q - low, s, d);
    assert q >= 0.0 && n >= 0.0;
    assert n + d == q * s;
  }

  lemma PartStep(gap: real, s: real, d: real)
    requires s > 0.0 && 0.0 <= gap < 1.0 && d == gap * s
    ensures 0.0 <= d < s
  {
    var rest := (1.0 - gap) * s;
    assert rest > 0.0 && d + rest == s;
  }

  /** Sizing succeeds on any positive reference; its target is a multiple of the step, of the signal's sign and
      within one step of the unrounded quantity. */
  lemma TargetLaw(d: Direction, current: real, reference: real, c: SizingConfiguration)
    requires ValidSizing(c)
    ensures SizeSignal(d, current, reference, c).Failure? <==> reference <= 0.0
    ensures SizeSignal(d, current, reference, c).Success? ==>
              var r, raw := SizeSignal(d, current, reference, c).value, Unrounded(d, reference, c);
              && Abs(r.target) <= Abs(raw)
              && (c.step.None? ==> r.target == raw)
              && (c.step.Some? ==> Abs(raw) < Abs(r.target) + c.step.value
                                   && exists units :: r.target == Steps(units, c.step.value))
              && (r.target > 0.0 ==> d == Long) && (r.target < 0.0 ==> d == Short)
  {
    if reference > 0.0 {
      RoundingLaw(Unrounded(d, reference, c), c.step);
      UnroundedSign(d, reference, c);
    }
  }

  /** `part` is the most of `whole` that rounding down to the step leaves. */
  predicate Within(part: real, whole: real, step: Option<real>, unit: real) {
    if step.None? then part * unit == whole else part * unit <= whole < (part + step.value) * unit
  }

  /** Everything a caller reads off the result: the target buys what was asked for, a quantity or a notional at the
      reference price, rounded down; the side and the reason follow from it. */
  lemma SizeLaw(d: Direction, current: real, reference: real, c: SizingConfiguration)
    requires ValidSizing(c)
    ensures match SizeSignal(d, current, reference, c)
            case Failure(e) => reference <= 0.0 && e == BadReference
            case Success(r) =>
              && reference > 0.0
              && (d == Flat ==> r.target == 0.0) && (d == Long ==> r.target >= 0.0) && (d == Short ==> r.target <= 0.0)
              && (d != Flat ==> Within(Abs(r.target), c.targetValue, c.step, if c.mode == FixedNotional then reference else 1.0))
              && r.current == current && r.reference == reference && r.delta == r.target - current
              && (r.side == Some(Buy) <==> r.target > current) && (r.side == Some(Sell) <==> r.target < current)
              && (r.reason == Some(RoundedTargetZero) <==> d != Flat && r.target == 0.0)
              && (r.reason == Some(TargetAlreadyReached) <==> (d == Flat || r.target != 0.0) && r.target == current)
  {
    hide Within;
    if reference > 0.0 {
      TargetBuys(d, reference, c);
      var raw := Unrounded(d, reference, c);
      RoundingLaw(raw, c.step);
      UnroundedSign(d, reference, c);
      hide Unrounded;
      hide RoundDownAbsolute;
    }
  }

  lemma TargetBuys(d: Direction, reference: real, c: SizingConfiguration)
    requires ValidSizing(c) && reference > 0.0
    ensures d != Flat ==>
              Within(Abs(RoundDownAbsolute(Unrounded(d, reference, c), c.step)), c.targetValue, c.step,
                     if c.mode == FixedNotional then reference else 1.0)
  {
    if d != Flat {
      var unit := if c.mode == FixedNotional then reference else 1.0;
      var raw := Unrounded(d, reference, c);
      Asked(d, reference, c);
      RoundingLaw(raw, c.step);
      hide Unrounded;
      var part := Abs(RoundDownAbsolute(raw, c.step));
      hide RoundDownAbsolute;
      Rounded(part, Abs(raw), c.targetValue, c.step, unit);
    }
  }

  lemma Rounded(part: real, raw: real, whole: real, step: Option<real>, unit: real)
    requires unit > 0.0 && raw * unit == whole
    requires if step.None? then part == raw else part <= raw < part + step.value
    ensures Within(part, whole, step, unit)
  {
    if step.Some? {
      Scale(part, raw, unit);
      ScaleStrictly(raw, part + step.value, unit);
    }
  }

  lemma Asked(d: Direction, reference: real, c: SizingConfiguration)
    requires ValidSizing(c) && reference > 0.0 && d != Flat
    ensures Abs(Unrounded(d, reference, c)) * (if c.mode == FixedNotional then reference else 1.0) == c.targetValue
  {
    UnroundedSign(d, reference, c);
    if c.mode == FixedNotional {
      var units := c.targetValue / reference;
      assert units * reference == c.targetValue;
      assert Abs(Unrounded(d, reference, c)) == units;
    }
  }

  lemma Scale(x: real, y: real, unit: real)
    requires x <= y && unit > 0.0
    ensures x * unit <= y * unit
  {
  }

  lemma ScaleStrictly(x: real, y: real, unit: real)
    requires x < y && unit > 0.0
    ensures x * unit < y * unit
  {
  }

  /** The intent made from a non-zero delta meets the constructor's sign and size rules, and filling it in full
      reaches the target (unless that would sell Spot short); sizing again at the same price then does nothing. */
  lemma SizingReachesTarget(d: Direction, h: Holding, mode: Mode, reference: real, price: real, c: SizingConfiguration)
    requires ValidSizing(c) && ValidHolding(mode, h) && price > 0.0 && reference > 0.0
    ensures var r := SizeSignal(d, h.quantity, reference, c).value;
            && (r.IsNoAction() <==> r.side.None?) && (r.IsNoAction() <==> h.quantity == r.target)
            && (r.side.Some? ==>
                  var fill := Move(mode, h, Sign(r.side.value) * Abs(r.delta), price);
                  && IntentAgrees(r.side.value, Abs(r.delta), r.delta)
                  && (fill.Failure? <==> mode == Spot && r.target < 0.0)
                  && (fill.Success? ==>
                        && fill.value.holding.quantity == r.target
                        && SizeSignal(d, fill.value.holding.quantity, reference, c).value.IsNoAction()))
  {
    hide Move;
    hide Shape;
    hide RoundDownAbsolute;
    var r := SizeSignal(d, h.quantity, reference, c).value;
    if r.delta != 0.0 {
      assert Sign(r.side.value) * Abs(r.delta) == r.delta;
      MoveShape(mode, h, r.delta, price);
      MoveQuantity(mode, h, r.delta, price);
    }
  }

  lemma MoveQuantity(mode: Mode, h: Holding, signed: real, price: real)
    requires ValidHolding(mode, h) && signed != 0.0 && price > 0.0
    ensures Move(mode, h, signed, price).Success? ==>
              Move(mode, h, signed, price).value.holding.quantity == h.quantity + signed
  {
    MoveShape(mode, h, signed, price);
    hide Move;
  }

  lemma UnroundedSign(d: Direction, reference: real, c: SizingConfiguration)
    requires ValidSizing(c) && reference > 0.0
    ensures (Unrounded(d, reference, c) > 0.0 <==> d == Long) && (Unrounded(d, reference, c) < 0.0 <==> d == Short)
  {
    assert c.targetValue / reference > 0.0;
  }
}
