/** Spot and linear-perpetual position transitions (execution/positions.py). */
module Positions {
  import opened Results
  import opened Models

  /** The economic part of a position: what a trade reads and writes. */
  datatype Holding = Holding(quantity: real, average: Option<real>, realized: real)

  datatype Moved = Moved(holding: Holding, realizedDelta: real, closed: real, reversed: bool)

  datatype Transition = Transition(state: PositionState, realizedDelta: real, closed: real, reversed: bool)

  predicate ValidHolding(mode: Mode, h: Holding) {
    && (h.average.Some? ==> h.average.value > 0.0)
    && (h.quantity == 0.0 <==> h.average.None?)
    && (mode == Spot ==> h.quantity >= 0.0)
  }

  function HoldingOf(p: PositionState): Holding {
    Holding(p.quantity, p.average, p.realized)
  }

  function EmptyPosition(series: Series, mode: Mode, at: Time): PositionState {
    PositionState(series, mode, 0.0, None, 0.0, at, [])
  }

  function AverageOrZero(average: Option<real>): real {
    if average.Some? then average.value else 0.0
  }

  function RealizedOnClose(quantity: real, closed: real, gain: real): real {
    closed * gain * (if quantity > 0.0 then 1.0 else -1.0)
  }

  /** One signed trade, branch by branch as the source takes them. */
  function Move(mode: Mode, h: Holding, signed: real, price: real): Result<Moved, Error>
    requires ValidHolding(mode, h) && signed != 0.0
  {
    var newQ := h.quantity + signed;
    if mode == Spot then
      if newQ < 0.0 then Failure(NegativeSpot)
      else if signed > 0.0 then
        var cost := h.quantity * AverageOrZero(h.average) + signed * price;
        Success(Moved(Holding(newQ, Some(cost / newQ), h.realized), 0.0, 0.0, false))
      else
        var delta := -signed * (price - h.average.value);
        Success(Moved(Holding(newQ, if newQ == 0.0 then None else h.average, h.realized + delta), delta, -signed, false))
    else if h.quantity == 0.0 then
      Success(Moved(Holding(newQ, Some(price), h.realized), 0.0, 0.0, false))
    else if h.quantity * signed > 0.0 then
      SameSign(h.quantity, signed);
      var average := (Abs(h.quantity) * AverageOrZero(h.average) + Abs(signed) * price) / Abs(newQ);
      Success(Moved(Holding(newQ, Some(average), h.realized), 0.0, 0.0, false))
    else
      var closed := Min(Abs(h.quantity), Abs(signed));
      var delta := RealizedOnClose(h.quantity, closed, price - h.average.value);
      var average := if newQ == 0.0 then None else if h.quantity * newQ > 0.0 then h.average else Some(price);
      Success(Moved(Holding(newQ, average, h.realized + delta), delta, closed, newQ != 0.0 && h.quantity * newQ <= 0.0))
  }

  /** `apply_fill_to_position`.  The two remaining `raise` statements of the source guard states its
      constructor forbids, so they have no branch here. */
  function ApplyFillToPosition(cur: PositionState, fill: Fill): Result<Transition, Error>
    requires ValidPosition(cur) && ValidFill(fill)
  {
    if fill.id in cur.sourceFills then Failure(DuplicateFill)
    else if cur.series.digest != fill.series.digest then Failure(SeriesMismatch)
    else if cur.mode != fill.mode then Failure(ModeMismatch)
    else
      var moved :- Move(fill.mode, HoldingOf(cur), Signed(fill), fill.price);
      var h := moved.holding;
      Success(Transition(
                PositionState(cur.series, cur.mode, h.quantity, h.average, h.realized, fill.filledAt, cur.sourceFills + [fill.id]),
                moved.realizedDelta, moved.closed, moved.reversed))
  }

  function UnrealizedPnl(p: PositionState, mark: Option<real>): real {
    if p.quantity == 0.0 || mark.None? then 0.0
    else p.quantity * (mark.value - (if p.average.Some? then p.average.value else mark.value))
  }

  /** Realized plus unrealized value of a holding at a mark. */
  function Worth(h: Holding, mark: real): real {
    h.realized + (if h.average.Some? then h.quantity * (mark - h.average.value) else 0.0)
  }

  // ---------------------------------------------------------------- arithmetic

  lemma SameSign(x: real, y: real)
    requires x * y > 0.0
    ensures (x > 0.0 && y > 0.0) || (x < 0.0 && y < 0.0)
  {
  }

  lemma Distribute(x: real, y: real, z: real)
    ensures (x + y) * z == x * z + y * z
  {
  }

  lemma CancelFactor(x: real, y: real)
    requires x != 0.0
    ensures x * y / x == y
  {
  }

  lemma CancelLeft(k: real, x: real, y: real)
    requires k != 0.0 && k * x == k * y
    ensures x == y
  {
    assert k * (x - y) == 0.0;
  }

  /** A weighted mean of two positive prices is positive and lies between them. */
  lemma MeanBetween(w1: real, x1: real, w2: real, x2: real, m: real)
    requires w1 > 0.0 && w2 > 0.0 && x1 > 0.0 && x2 > 0.0
    requires (w1 + w2) * m == w1 * x1 + w2 * x2
    ensures m > 0.0 && Min(x1, x2) <= m <= Max(x1, x2)
  {
    MeanAbove(w1, x1, w2, x2, m, Min(x1, x2));
    MeanAbove(w1, -x1, w2, -x2, -m, -Max(x1, x2));
  }

  lemma MeanAbove(w1: real, x1: real, w2: real, x2: real, m: real, lo: real)
    requires w1 > 0.0 && w2 > 0.0 && lo <= x1 && lo <= x2
    requires (w1 + w2) * m == w1 * x1 + w2 * x2
    ensures lo <= m
  {
    assert w1 * (x1 - lo) >= 0.0 && w2 * (x2 - lo) >= 0.0;
    assert (w1 + w2) * (m - lo) == w1 * (x1 - lo) + w2 * (x2 - lo);
    Unscale(w1 + w2, 0.0, m - lo);
  }

  lemma Unscale(k: real, x: real, y: real)
    requires k > 0.0 && k * x <= k * y
    ensures x <= y
  {
  }

  // ---------------------------------------------------------------- one trade

  predicate SameSide(q: real, s: real) {
    (q >= 0.0 && s > 0.0) || (q <= 0.0 && s < 0.0)
  }

  /** What a trade does, without division or branches on the mode: adding keeps the cost of the holding,
      reducing realizes on what is traded, reversing realizes on the whole position and restarts its average. */
  predicate Shape(h: Holding, s: real, p: real, m: Moved)
    requires (h.quantity == 0.0 <==> h.average.None?) && s != 0.0
  {
    var q := h.quantity;
    && m.holding.quantity == q + s
    && m.holding.realized == h.realized + m.realizedDelta
    && if SameSide(q, s) then
         && m.realizedDelta == 0.0 && m.closed == 0.0 && !m.reversed
         && m.holding.average.Some?
         && (if q == 0.0 then m.holding.average.value == p
             else Min(h.average.value, p) <= m.holding.average.value <= Max(h.average.value, p)
                  && (q + s) * m.holding.average.value == q * h.average.value + s * p)
       else if Abs(s) <= Abs(q) then
         && m.realizedDelta == -s * (p - h.average.value) && m.closed == Abs(s) && !m.reversed
         && m.holding.average == (if q + s == 0.0 then None else h.average)
       else
         && m.realizedDelta == q * (p - h.average.value) && m.closed == Abs(q) && m.reversed
         && m.holding.average == Some(p)
  }

  /** A trade is refused exactly when it would oversell Spot inventory; an accepted one has the shape above
      and leaves a holding that the position's constructor admits. */
  lemma MoveShape(mode: Mode, h: Holding, s: real, p: real)
    requires ValidHolding(mode, h) && s != 0.0 && p > 0.0
    ensures Move(mode, h, s, p).Success? <==> !(mode == Spot && h.quantity + s < 0.0)
    ensures Move(mode, h, s, p).Failure? ==> Move(mode, h, s, p).error == NegativeSpot
    ensures Move(mode, h, s, p).Success? ==> Shape(h, s, p, Move(mode, h, s, p).value)
    ensures Move(mode, h, s, p).Success? ==> ValidHolding(mode, Move(mode, h, s, p).value.holding)
  {
    if Move(mode, h, s, p).Success? {
      if SameSide(h.quantity, s) {
        AddingShape(mode, h, s, p);
      } else {
        ReducingShape(mode, h, s, p);
      }
    }
  }

  lemma AddingShape(mode: Mode, h: Holding, s: real, p: real)
    requires ValidHolding(mode, h) && s != 0.0 && p > 0.0 && SameSide(h.quantity, s)
    requires Move(mode, h, s, p).Success?
    ensures Shape(h, s, p, Move(mode, h, s, p).value)
    ensures ValidHolding(mode, Move(mode, h, s, p).value.holding)
  {
    if h.quantity == 0.0 {
      CancelFactor(s, p);
    } else {
      GrowingShape(mode, h, s, p);
    }
  }

  lemma GrowingShape(mode: Mode, h: Holding, s: real, p: real)
    requires ValidHolding(mode, h) && s != 0.0 && p > 0.0 && SameSide(h.quantity, s) && h.quantity != 0.0
    requires Move(mode, h, s, p).Success?
    ensures Shape(h, s, p, Move(mode, h, s, p).value)
    ensures ValidHolding(mode, Move(mode, h, s, p).value.holding)
  {
    var q, a, b := h.quantity, h.average.value, Move(mode, h, s, p).value.holding.average.value;
    assert q * s > 0.0;
    if mode == Spot {
      assert (q + s) * b == q * a + s * p;
    } else {
      assert Abs(q + s) * b == Abs(q) * a + Abs(s) * p;
    }
    MeanBetween(Abs(q), a, Abs(s), p, b);
  }

  lemma ReducingShape(mode: Mode, h: Holding, s: real, p: real)
    requires ValidHolding(mode, h) && s != 0.0 && p > 0.0 && !SameSide(h.quantity, s)
    requires Move(mode, h, s, p).Success?
    ensures Shape(h, s, p, Move(mode, h, s, p).value)
    ensures ValidHolding(mode, Move(mode, h, s, p).value.holding)
  {
    if mode == LinearPerpetual {
      PerpetualReducing(h, s, p);
    }
  }

  lemma ProductSign(x: real, y: real)
    ensures (x > 0.0 && y > 0.0) || (x < 0.0 && y < 0.0) ==> x * y > 0.0
    ensures (x > 0.0 && y < 0.0) || (x < 0.0 && y > 0.0) ==> x * y < 0.0
  {
  }

  lemma PerpetualReducing(h: Holding, s: real, p: real)
    requires ValidHolding(LinearPerpetual, h) && s != 0.0 && p > 0.0 && !SameSide(h.quantity, s)
    ensures Shape(h, s, p, Move(LinearPerpetual, h, s, p).value)
  {
    hide RealizedOnClose;
    ProductSign(h.quantity, s);
    ProductSign(h.quantity, h.quantity + s);
    ClosedGain(h.quantity, s, p - h.average.value);
  }

  lemma ClosedGain(q: real, s: real, gain: real)
    requires (q > 0.0 > s) || (q < 0.0 < s)
    ensures RealizedOnClose(q, Min(Abs(q), Abs(s)), gain) == (if Abs(s) <= Abs(q) then -s * gain else q * gain)
  {
  }

  /** At any mark, a trade adds its own gain to what the holding is worth: every branch, reversal included. */
  lemma WorthLaw(mode: Mode, h: Holding, s: real, p: real, m: Moved, mark: real)
    requires ValidHolding(mode, h) && s != 0.0 && Shape(h, s, p, m) && ValidHolding(mode, m.holding)
    ensures Worth(m.holding, mark) == Worth(h, mark) + s * (mark - p)
  {
    var q := h.quantity;
    if q != 0.0 {
      var a := h.average.value;
      if SameSide(q, s) {
        var b := m.holding.average.value;
        assert (q + s) * (mark - b) == (q + s) * mark - (q + s) * b;
        Distribute(q, s, mark);
      } else if Abs(s) <= Abs(q) {
        assert -s * (p - a) + (q + s) * (mark - a) == q * (mark - a) + s * (mark - p);
      } else {
        assert q * (p - a) + (q + s) * (mark - p) == q * (mark - a) + s * (mark - p);
      }
    }
  }

  // ---------------------------------------------------------------- runs of trades

  datatype Trade = Trade(signed: real, price: real)

  predicate ValidTrades(ts: seq<Trade>) {
    forall i :: 0 <= i < |ts| ==> ts[i].signed != 0.0 && ts[i].price > 0.0
  }

  /** Successive trades on one series; a refused trade ends the run. */
  function RunTrades(mode: Mode, h: Holding, ts: seq<Trade>): Result<Holding, Error>
    requires ValidHolding(mode, h) && ValidTrades(ts)
    decreases |ts|
  {
    if ts == [] then Success(h)
    else
      MoveShape(mode, h, ts[0].signed, ts[0].price);
      var moved :- Move(mode, h, ts[0].signed, ts[0].price);
      RunTrades(mode, moved.holding, ts[1..])
  }

  function Sum(xs: seq<real>): real {
    if xs == [] then 0.0 else xs[0] + Sum(xs[1..])
  }

  function Slices(pieces: seq<real>, price: real): seq<Trade> {
    if pieces == [] then [] else [Trade(pieces[0], price)] + Slices(pieces[1..], price)
  }

  /** One order cut into non-zero pieces of its own sign. */
  predicate Cut(total: real, pieces: seq<real>) {
    pieces != [] && Sum(pieces) == total && OneSigned(pieces[0], pieces[1..])
  }

  predicate OneSigned(head: real, more: seq<real>) {
    if head > 0.0 then forall i :: 0 <= i < |more| ==> more[i] > 0.0
    else head < 0.0 && forall i :: 0 <= i < |more| ==> more[i] < 0.0
  }

  function SliceAll(ts: seq<Trade>, cuts: seq<seq<real>>): seq<Trade>
    requires |cuts| == |ts|
  {
    if ts == [] then [] else Slices(cuts[0], ts[0].price) + SliceAll(ts[1..], cuts[1..])
  }

  /** Two trades on one side at one price do exactly what their sum does, refusal included. */
  lemma SplitInTwo(mode: Mode, h: Holding, s1: real, s2: real, price: real)
    requires ValidHolding(mode, h) && ((s1 > 0.0 && s2 > 0.0) || (s1 < 0.0 && s2 < 0.0)) && price > 0.0
    ensures Move(mode, h, s1 + s2, price).Success? ==>
              && Move(mode, h, s1, price).Success?
              && ValidHolding(mode, Move(mode, h, s1, price).value.holding)
    ensures Move(mode, h, s1, price).Success? ==>
              && ValidHolding(mode, Move(mode, h, s1, price).value.holding)
              && var whole, second := Move(mode, h, s1 + s2, price), Move(mode, Move(mode, h, s1, price).value.holding, s2, price);
                 && (whole.Success? <==> second.Success?)
                 && (whole.Success? ==> whole.value.holding == second.value.holding)
  {
    MoveShape(mode, h, s1, price);
    MoveShape(mode, h, s1 + s2, price);
    if Move(mode, h, s1, price).Success? {
      var first := Move(mode, h, s1, price).value;
      MoveShape(mode, first.holding, s2, price);
      if Move(mode, h, s1 + s2, price).Success? {
        SplitShape(mode, h, s1, s2, price, first, Move(mode, first.holding, s2, price).value, Move(mode, h, s1 + s2, price).value);
      }
    }
  }

  lemma SplitShape(mode: Mode, h: Holding, s1: real, s2: real, price: real, first: Moved, second: Moved, whole: Moved)
    requires ValidHolding(mode, h) && ((s1 > 0.0 && s2 > 0.0) || (s1 < 0.0 && s2 < 0.0)) && price > 0.0
    requires Shape(h, s1, price, first) && ValidHolding(mode, first.holding)
    requires Shape(first.holding, s2, price, second) && Shape(h, s1 + s2, price, whole)
    ensures second.holding == whole.holding
  {
    var q := h.quantity;
    if q == 0.0 {
      SplitOpeningShape(mode, h, s1, s2, price, first, second, whole);
    } else if SameSide(q, s1) {
      SplitAddingShape(mode, h, s1, s2, price, first, second, whole);
    } else if Abs(s1) < Abs(q) {
      SplitReducingShape(mode, h, s1, s2, price, first, second, whole);
    } else {
      SplitReversingShape(mode, h, s1, s2, price, first, second, whole);
    }
  }

  lemma SplitOpeningShape(mode: Mode, h: Holding, s1: real, s2: real, price: real, first: Moved, second: Moved, whole: Moved)
    requires ValidHolding(mode, h) && ((s1 > 0.0 && s2 > 0.0) || (s1 < 0.0 && s2 < 0.0)) && price > 0.0
    requires Shape(h, s1, price, first) && ValidHolding(mode, first.holding)
    requires Shape(first.holding, s2, price, second) && Shape(h, s1 + s2, price, whole)
    requires h.quantity == 0.0
    ensures second.holding == whole.holding
  {
    Distribute(s1, s2, price);
    CancelLeft(s1 + s2, second.holding.average.value, price);
  }

  lemma SplitAddingShape(mode: Mode, h: Holding, s1: real, s2: real, price: real, first: Moved, second: Moved, whole: Moved)
    requires ValidHolding(mode, h) && ((s1 > 0.0 && s2 > 0.0) || (s1 < 0.0 && s2 < 0.0)) && price > 0.0
    requires Shape(h, s1, price, first) && ValidHolding(mode, first.holding)
    requires Shape(first.holding, s2, price, second) && Shape(h, s1 + s2, price, whole)
    requires SameSide(h.quantity, s1) && h.quantity != 0.0
    ensures second.holding == whole.holding
  {
    hide Min;
    hide Max;
    hide Abs;
    var f := first.holding;
    assert f.quantity != 0.0 && SameSide(f.quantity, s2) && SameSide(h.quantity, s1 + s2);
    SplitAdding(h.quantity, h.average.value, s1, s2, price, f.average.value,
                second.holding.average.value, whole.holding.average.value);
  }

  lemma SplitReducingShape(mode: Mode, h: Holding, s1: real, s2: real, price: real, first: Moved, second: Moved, whole: Moved)
    requires ValidHolding(mode, h) && ((s1 > 0.0 && s2 > 0.0) || (s1 < 0.0 && s2 < 0.0)) && price > 0.0
    requires Shape(h, s1, price, first) && ValidHolding(mode, first.holding)
    requires Shape(first.holding, s2, price, second) && Shape(h, s1 + s2, price, whole)
    requires !SameSide(h.quantity, s1) && Abs(s1) < Abs(h.quantity)
    ensures second.holding == whole.holding
  {
    var q, gain := h.quantity, price - h.average.value;
    if Abs(s2) <= Abs(q + s1) {
      Distribute(-s1, -s2, gain);
    } else {
      Distribute(-s1, q + s1, gain);
    }
  }

  lemma SplitReversingShape(mode: Mode, h: Holding, s1: real, s2: real, price: real, first: Moved, second: Moved, whole: Moved)
    requires ValidHolding(mode, h) && ((s1 > 0.0 && s2 > 0.0) || (s1 < 0.0 && s2 < 0.0)) && price > 0.0
    requires Shape(h, s1, price, first) && ValidHolding(mode, first.holding)
    requires Shape(first.holding, s2, price, second) && Shape(h, s1 + s2, price, whole)
    requires !SameSide(h.quantity, s1) && Abs(s1) >= Abs(h.quantity)
    ensures second.holding == whole.holding
  {
    assert whole.holding.average == Some(price);
    assert first.realizedDelta == whole.realizedDelta;
    assert second.realizedDelta == 0.0;
    if first.holding.quantity != 0.0 {
      Distribute(first.holding.quantity, s2, price);
      CancelLeft(first.holding.quantity + s2, second.holding.average.value, price);
    }
  }

  lemma SplitAdding(q: real, a: real, s1: real, s2: real, p: real, b1: real, b2: real, b: real)
    requires q + s1 != 0.0 && q + s1 + s2 != 0.0
    requires (q + s1) * b1 == q * a + s1 * p && (q + (s1 + s2)) * b == q * a + (s1 + s2) * p
    requires (q + s1 + s2) * b2 == (q + s1) * b1 + s2 * p
    ensures b2 == b
  {
    Distribute(s1, s2, p);
    assert q + (s1 + s2) == q + s1 + s2;
    CancelLeft(q + s1 + s2, b2, b);
  }

  /** Two trades on one side at one price, in front of any others, do exactly what their sum does. */
  lemma MergeFirst(mode: Mode, h: Holding, s1: real, s2: real, price: real, rest: seq<Trade>)
    requires ValidHolding(mode, h) && ((s1 > 0.0 && s2 > 0.0) || (s1 < 0.0 && s2 < 0.0)) && price > 0.0 && ValidTrades(rest)
    ensures ValidTrades([Trade(s1, price), Trade(s2, price)] + rest) && ValidTrades([Trade(s1 + s2, price)] + rest)
    ensures RunTrades(mode, h, [Trade(s1, price), Trade(s2, price)] + rest) == RunTrades(mode, h, [Trade(s1 + s2, price)] + rest)
  {
    hide Move;
    hide Shape;
    var one, two := [Trade(s1 + s2, price)] + rest, [Trade(s1, price), Trade(s2, price)] + rest;
    assert one[1..] == rest && two[1..] == [Trade(s2, price)] + rest && two[1..][1..] == rest;
    SplitInTwo(mode, h, s1, s2, price);
    MoveShape(mode, h, s1, price);
    MoveShape(mode, h, s1 + s2, price);
    if Move(mode, h, s1, price).Success? {
      MoveShape(mode, Move(mode, h, s1, price).value.holding, s2, price);
    }
  }

  /** Cutting one order into any pieces changes nothing. */
  lemma {:induction false} SlicesActAsOne(mode: Mode, h: Holding, head: real, more: seq<real>, price: real, rest: seq<Trade>)
    requires ValidHolding(mode, h) && price > 0.0 && ValidTrades(rest) && OneSigned(head, more)
    requires ValidTrades([Trade(head, price)] + Slices(more, price) + rest)
    ensures head + Sum(more) != 0.0 && ValidTrades([Trade(head + Sum(more), price)] + rest)
    ensures RunTrades(mode, h, [Trade(head, price)] + Slices(more, price) + rest)
         == RunTrades(mode, h, [Trade(head + Sum(more), price)] + rest)
    decreases |more|
  {
    hide RunTrades;
    hide ValidTrades;
    if more == [] {
      assert [Trade(head, price)] + Slices(more, price) + rest == [Trade(head, price)] + rest;
    } else {
      var tail := Slices(more[1..], price) + rest;
      assert [Trade(head, price)] + Slices(more, price) + rest == [Trade(head, price), Trade(more[0], price)] + tail;
      ValidTail(Trade(head, price), Trade(more[0], price), tail);
      MergeFirst(mode, h, head, more[0], price, tail);
      assert [Trade(head + more[0], price)] + Slices(more[1..], price) + rest == [Trade(head + more[0], price)] + tail;
      SlicesActAsOne(mode, h, head + more[0], more[1..], price, rest);
      assert head + Sum(more) == head + more[0] + Sum(more[1..]);
    }
  }

  lemma ValidTail(t: Trade, u: Trade, tail: seq<Trade>)
    requires ValidTrades([t, u] + tail)
    ensures ValidTrades(tail)
  {
    assert forall i :: 0 <= i < |tail| ==> tail[i] == ([t, u] + tail)[i + 2];
  }

  lemma SlicesValid(head: real, more: seq<real>, price: real, rest: seq<Trade>)
    requires price > 0.0 && ValidTrades(rest) && OneSigned(head, more)
    ensures ValidTrades([Trade(head, price)] + Slices(more, price) + rest)
  {
    assert forall i :: 0 <= i < |more| ==> more[i] != 0.0;
    NonZeroSlices(more, price);
  }

  lemma NonZeroSlices(pieces: seq<real>, price: real)
    requires price > 0.0 && forall i :: 0 <= i < |pieces| ==> pieces[i] != 0.0
    ensures ValidTrades(Slices(pieces, price))
  {
  }

  /** However a whole list of trades is cut into fills at its own prices, the outcome is the same: quantity,
      average entry and realized PnL, or the refusal. */
  lemma {:induction false} SplittingIsInvisible(mode: Mode, h: Holding, ts: seq<Trade>, cuts: seq<seq<real>>)
    requires ValidHolding(mode, h) && ValidTrades(ts) && |cuts| == |ts|
    requires forall i :: 0 <= i < |ts| ==> Cut(ts[i].signed, cuts[i])
    ensures ValidTrades(SliceAll(ts, cuts))
    ensures RunTrades(mode, h, SliceAll(ts, cuts)) == RunTrades(mode, h, ts)
    decreases |ts|
  {
    hide Move;
    hide Slices;
    if ts != [] {
      var t, first, more := ts[0], cuts[0][0], cuts[0][1..];
      var rest := SliceAll(ts[1..], cuts[1..]);
      SplittingIsInvisible(mode, h, ts[1..], cuts[1..]);
      SlicesValid(first, more, t.price, rest);
      SlicesActAsOne(mode, h, first, more, t.price, rest);
      FirstSlice(cuts[0], t.price);
      assert ([t] + rest)[1..] == rest;
      MoveShape(mode, h, t.signed, t.price);
      var moved := Move(mode, h, t.signed, t.price);
      if moved.Success? {
        SplittingIsInvisible(mode, moved.value.holding, ts[1..], cuts[1..]);
      }
    }
  }

  lemma FirstSlice(pieces: seq<real>, price: real)
    requires pieces != []
    ensures Slices(pieces, price) == [Trade(pieces[0], price)] + Slices(pieces[1..], price)
  {
  }

  // ---------------------------------------------------------------- reachable positions

  function SignedSum(ts: seq<Trade>): real {
    if ts == [] then 0.0 else ts[0].signed + SignedSum(ts[1..])
  }

  function EntriesAfter(q: real, s: real, p: real, entries: seq<real>): seq<real> {
    if q == 0.0 then [p]
    else if SameSide(q, s) then entries + [p]
    else if Abs(s) < Abs(q) then entries
    else if Abs(s) == Abs(q) then []
    else [p]
  }

  /** The prices at which the present position was opened or increased, since it was last flat or reversed. */
  function OpeningPrices(q: real, ts: seq<Trade>, entries: seq<real>): seq<real>
    decreases |ts|
  {
    if ts == [] then entries
    else OpeningPrices(q + ts[0].signed, ts[1..], EntriesAfter(q, ts[0].signed, ts[0].price, entries))
  }

  predicate Spans(prices: seq<real>, x: real) {
    exists i, j :: 0 <= i < |prices| && 0 <= j < |prices| && prices[i] <= x <= prices[j]
  }

  predicate Averaged(h: Holding, entries: seq<real>) {
    if h.average.None? then entries == [] else Spans(entries, h.average.value)
  }

  /** After any accepted run: the quantity is the signed sum, the constructor's checks hold, and the average
      entry lies between two of the prices that entries the position. */
  lemma {:induction false} ReachableHolding(mode: Mode, h: Holding, ts: seq<Trade>, entries: seq<real>)
    requires ValidHolding(mode, h) && ValidTrades(ts) && Averaged(h, entries)
    requires RunTrades(mode, h, ts).Success?
    ensures var end := RunTrades(mode, h, ts).value;
            && ValidHolding(mode, end)
            && end.quantity == h.quantity + SignedSum(ts)
            && Averaged(end, OpeningPrices(h.quantity, ts, entries))
    decreases |ts|
  {
    if ts != [] {
      var s, p, q := ts[0].signed, ts[0].price, h.quantity;
      MoveShape(mode, h, s, p);
      var m := Move(mode, h, s, p).value;
      StillAveraged(h, s, p, m, entries);
      ReachableHolding(mode, m.holding, ts[1..], EntriesAfter(q, s, p, entries));
    }
  }

  lemma StillAveraged(h: Holding, s: real, p: real, m: Moved, entries: seq<real>)
    requires (h.quantity == 0.0 <==> h.average.None?) && s != 0.0 && Averaged(h, entries) && Shape(h, s, p, m)
    ensures Averaged(m.holding, EntriesAfter(h.quantity, s, p, entries))
  {
    var q, now := h.quantity, EntriesAfter(h.quantity, s, p, entries);
    if q == 0.0 || (!SameSide(q, s) && Abs(s) > Abs(q)) {
      assert now[0] == p;
    } else if SameSide(q, s) {
      var a := h.average.value;
      var i, j :| 0 <= i < |entries| && 0 <= j < |entries| && entries[i] <= a <= entries[j];
      assert now[|entries|] == p && now[i] == entries[i] && now[j] == entries[j];
    }
  }

  /** Fills applied to a position one after another; the first refusal ends the run. */
  function RunFills(cur: PositionState, fills: seq<Fill>): Result<PositionState, Error>
    requires ValidPosition(cur) && forall f :: f in fills ==> ValidFill(f)
    decreases |fills|
  {
    if fills == [] then Success(cur)
    else
      ApplyFillLaw(cur, fills[0]);
      var t :- ApplyFillToPosition(cur, fills[0]);
      RunFills(t.state, fills[1..])
  }

  function TradesOf(fills: seq<Fill>): (ts: seq<Trade>)
    requires forall f :: f in fills ==> ValidFill(f)
    ensures ValidTrades(ts) && |ts| == |fills|
  {
    if fills == [] then []
    else
      assert ValidFill(fills[0]);
      [Trade(Signed(fills[0]), fills[0].price)] + TradesOf(fills[1..])
  }

  predicate Matches(cur: PositionState, f: Fill) {
    f.series.digest == cur.series.digest && f.mode == cur.mode && f.id !in cur.sourceFills
  }

  predicate Addressed(cur: PositionState, fills: seq<Fill>) {
    && (forall i :: 0 <= i < |fills| ==> Matches(cur, fills[i]))
    && (forall i, j :: 0 <= i < j < |fills| ==> fills[i].id != fills[j].id)
  }

  /** When a single fill is accepted, and that the new position passes its constructor. */
  lemma ApplyFillLaw(cur: PositionState, fill: Fill)
    requires ValidPosition(cur) && ValidFill(fill)
    ensures ApplyFillToPosition(cur, fill).Success? <==>
              Matches(cur, fill) && !(cur.mode == Spot && cur.quantity + Signed(fill) < 0.0)
    ensures ApplyFillToPosition(cur, fill).Success? ==>
              var t := ApplyFillToPosition(cur, fill).value;
              && ValidPosition(t.state) && t.state.series == cur.series && t.state.mode == cur.mode
              && t.state.quantity == cur.quantity + Signed(fill)
              && t.state.realized == cur.realized + t.realizedDelta
              && t.state.sourceFills == cur.sourceFills + [fill.id]
              && Shape(HoldingOf(cur), Signed(fill), fill.price,
                       Moved(HoldingOf(t.state), t.realizedDelta, t.closed, t.reversed))
  {
    MoveShape(cur.mode, HoldingOf(cur), Signed(fill), fill.price);
  }

  /** A list of fills is accepted exactly when every fill is addressed to the position, none repeats and no
      prefix oversells; the position then holds what the trades alone determine. */
  lemma {:induction false} FillsFollowTrades(cur: PositionState, fills: seq<Fill>)
    requires ValidPosition(cur) && forall f :: f in fills ==> ValidFill(f)
    ensures RunFills(cur, fills).Success? <==>
              Addressed(cur, fills) && RunTrades(cur.mode, HoldingOf(cur), TradesOf(fills)).Success?
    ensures RunFills(cur, fills).Success? ==>
              && ValidPosition(RunFills(cur, fills).value)
              && HoldingOf(RunFills(cur, fills).value) == RunTrades(cur.mode, HoldingOf(cur), TradesOf(fills)).value
    decreases |fills|
  {
    hide Move;
    hide Shape;
    if fills != [] {
      var f, rest := fills[0], fills[1..];
      ApplyFillLaw(cur, f);
      MoveShape(cur.mode, HoldingOf(cur), Signed(f), f.price);
      var applied := ApplyFillToPosition(cur, f);
      assert fills == [f] + rest;
      if applied.Success? {
        FillsFollowTrades(applied.value.state, rest);
        AddressedStep(cur, f, rest, applied.value.state);
      }
    }
  }

  lemma AddressedStep(cur: PositionState, f: Fill, rest: seq<Fill>, next: PositionState)
    requires Matches(cur, f)
    requires next.series == cur.series && next.mode == cur.mode && next.sourceFills == cur.sourceFills + [f.id]
    ensures Addressed(cur, [f] + rest) <==> Addressed(next, rest)
  {
    var fills := [f] + rest;
    assert forall i :: 0 <= i < |rest| ==> fills[i + 1] == rest[i];
    assert forall g: Fill :: Matches(next, g) <==> Matches(cur, g) && g.id != f.id;
    if Addressed(cur, fills) {
      forall i | 0 <= i < |rest|
        ensures Matches(next, rest[i])
      {
        assert fills[i + 1] == rest[i] && Matches(cur, fills[i + 1]) && fills[0].id != fills[i + 1].id;
      }
    }
    if Addressed(next, rest) {
      forall i, j | 0 <= i < j < |fills|
        ensures fills[i].id != fills[j].id
      {
        assert Matches(next, rest[j - 1]);
        if i > 0 {
          assert fills[i] == rest[i - 1];
        }
      }
    }
  }
}
