/** When the simulated broker fills an order, and at what price and fee (execution/brokers/simulated.py,
    execution/slippage.py, execution/fees.py). */
module BrokerLaws {
  import opened Results
  import opened Models
  import opened Sorting
  import opened Events
  import opened Backtest
  import opened SimulatedBroker
  import EngineLaws

  // ---------------------------------------------------------------- terms of a trade

  /** A price at least as good as asked: no higher for a buy, no lower for a sell. */
  predicate AtLeastAsGood(side: Side, price: real, asked: Option<real>) {
    asked.Some? && (side == Buy ==> price <= asked.value) && (side == Sell ==> price >= asked.value)
  }

  /** A price that has moved against the order as far as asked. */
  predicate AtLeastAsBad(side: Side, price: real, asked: Option<real>) {
    asked.Some? && (side == Buy ==> price >= asked.value) && (side == Sell ==> price <= asked.value)
  }

  /** Slippage is always adverse: a buy pays more than the base, a sell receives less, by so many hundredths of a percent
      of the base. */
  predicate SlippedBy(side: Side, price: real, base: real, bps: real) {
    (if side == Buy then price - base else base - price) * 10000.0 == base * bps
  }

  /** Fees are charged on the traded value, at the rate for the liquidity given or taken. */
  predicate ChargedBy(fee: real, price: real, quantity: real, bps: real) {
    fee * 10000.0 == price * quantity * bps
  }

  predicate Waits(o: Order) {
    o.intent.orderType == StopLimit && o.status != Triggered
  }

  /** An order that a bar's open fills: any market order, a limit met by the open, a stop passed by it, and a stop-limit
      both passed, now or earlier, and met. */
  predicate OpenReaches(o: Order, open: real) {
    match o.intent.orderType
    case Market => true
    case Limit => AtLeastAsGood(o.intent.side, open, o.intent.limit)
    case Stop => AtLeastAsBad(o.intent.side, open, o.intent.stop)
    case StopLimit =>
      AtLeastAsGood(o.intent.side, open, o.intent.limit) && (o.status == Triggered || AtLeastAsBad(o.intent.side, open, o.intent.stop))
  }

  /** At an open, market and stop orders trade at the open and slip, the others trade at the open itself; a limit that was
      already waiting gives liquidity. */
  predicate OpenTerms(s: Settings, o: Order, open: real, price: real, liquidity: Liquidity) {
    && (o.intent.orderType == Market || o.intent.orderType == Stop ==> SlippedBy(o.intent.side, price, open, s.adverseBps))
    && (o.intent.orderType == Limit || o.intent.orderType == StopLimit ==> price == open)
    && (liquidity == Maker <==> o.intent.orderType == Limit || (o.intent.orderType == StopLimit && o.status == Triggered))
  }

  /** An order that a completed bar fills: a limit its range has reached, or a stop it has passed. */
  predicate BarReaches(o: Order, p: Prices) {
    match o.intent.orderType
    case Market => false
    case Limit => AtLeastAsGood(o.intent.side, if o.intent.side == Buy then p.low else p.high, o.intent.limit)
    case Stop => AtLeastAsBad(o.intent.side, if o.intent.side == Buy then p.high else p.low, o.intent.stop)
    case StopLimit => o.status == Triggered && AtLeastAsGood(o.intent.side, if o.intent.side == Buy then p.low else p.high, o.intent.limit)
  }

  /** In a completed bar a limit trades at its limit and gives liquidity, a stop trades at its stop and slips. */
  predicate BarTerms(s: Settings, o: Order, price: real, liquidity: Liquidity) {
    if o.intent.orderType == Stop then
      liquidity == Taker && o.intent.stop.Some? && SlippedBy(o.intent.side, price, o.intent.stop.value, s.adverseBps)
    else liquidity == Maker && Some(price) == o.intent.limit
  }

  predicate Lists(active: Active, id: Uuid) {
    exists o :: o in active && o.id == id
  }

  ghost predicate Leaves(active: Active, id: Uuid, left: Active) {
    forall o :: o in left <==> o in active && o.id != id
  }

  /** An attempt to fill: the guard is asked about this price and fee, with the orders active at that moment; if it accepts
      the order is filled in full, if not rejected, and either way it is active no longer. */
  ghost predicate Attempted(s: Settings, active: Active, o: Order, at: Time, price: real, liquidity: Liquidity, check: RiskCheck, left: Active,
                            before: seq<Order>, result: BrokerResult) {
    exists fee: real, open: map<Digest, nat> ::
      var decision := check(o.intent, price, liquidity, fee, open);
      && ChargedBy(fee, price, o.intent.quantity, if liquidity == Maker then s.makerBps else s.takerBps)
      && EngineLaws.Counts(open, ActiveOrders(active, None))
      && result.decisions == [decision] && Leaves(active, o.id, left)
      && result.updates == before + [o.(status := if decision.accepted then Filled else Rejected)]
      && (if decision.accepted then
            |result.fills| == 1 && FilledFrom(s, o, at, price, fee, result.fills[0])
          else result.fills == [])
  }

  predicate FilledFrom(s: Settings, o: Order, at: Time, price: real, fee: real, f: GoodFill) {
    f == Fill(s.fillId(o.id, at), o.series, at, o.intent.side, o.intent.quantity, price, o.intent.mode, fee, s.currency)
  }

  // ---------------------------------------------------------------- one order

  lemma SlipLaw(s: Settings, side: Side, base: real)
    ensures Slipped(s, side, base).Success? ==> SlippedBy(side, Slipped(s, side, base).value, base, s.adverseBps)
  {
    var amount := base * s.adverseBps / 10000.0;
    assert amount * 10000.0 == base * s.adverseBps;
  }

  lemma WithoutLaw(active: Active, id: Uuid)
    ensures Leaves(active, id, Without(active, id))
  {
    forall o
      ensures o in Without(active, id) <==> o in active && o.id != id
    {
      FilterMember(active, (x: Order) => x.id != id, o);
    }
  }

  lemma FeeLaw(s: Settings, price: real, quantity: real, liquidity: Liquidity)
    ensures ChargedBy(FeeFor(s, price, quantity, liquidity), price, quantity, if liquidity == Maker then s.makerBps else s.takerBps)
  {
  }

  lemma FillOrderLaw(s: Settings, active: Active, o: Order, at: Time, base: real, liquidity: Liquidity, slip: bool, check: RiskCheck)
    ensures match FillOrder(s, active, o, at, base, liquidity, slip, check)
            case Failure(_) => true
            case Success((left, result)) =>
              exists price: real ::
                && (if slip then SlippedBy(o.intent.side, price, base, s.adverseBps) else price == base)
                && Attempted(s, active, o, at, price, liquidity, check, left, [], result)
  {
    hide ActiveOrders;
    hide OpenOrders;
    hide Without;
    SlipLaw(s, o.intent.side, base);
    WithoutLaw(active, o.id);
    EngineLaws.OpenOrdersLaw(ActiveOrders(active, None));
    var r := FillOrder(s, active, o, at, base, liquidity, slip, check);
    if r.Success? {
      var price := if slip then Slipped(s, o.intent.side, base).value else base;
      var fee := FeeFor(s, price, o.intent.quantity, liquidity);
      FeeLaw(s, price, o.intent.quantity, liquidity);
      hide FeeFor;
      hide Slipped;
      hide SlippedBy;
      hide ChargedBy;
      hide Leaves;
      hide EngineLaws.Counts;
      AttemptedWith(s, active, o, at, price, liquidity, check, r.value.0, r.value.1, fee, OpenOrders(ActiveOrders(active, None)));
    }
  }

  lemma AttemptedWith(s: Settings, active: Active, o: Order, at: Time, price: real, liquidity: Liquidity, check: RiskCheck, left: Active,
                      result: BrokerResult, fee: real, open: map<Digest, nat>)
    requires ChargedBy(fee, price, o.intent.quantity, if liquidity == Maker then s.makerBps else s.takerBps)
    requires EngineLaws.Counts(open, ActiveOrders(active, None)) && Leaves(active, o.id, left)
    requires var decision := check(o.intent, price, liquidity, fee, open);
             && result.decisions == [decision] && result.updates == [o.(status := if decision.accepted then Filled else Rejected)]
             && (if decision.accepted then |result.fills| == 1 && FilledFrom(s, o, at, price, fee, result.fills[0]) else result.fills == [])
    ensures Attempted(s, active, o, at, price, liquidity, check, left, [], result)
  {
    assert [] + result.updates == result.updates;
    hide ActiveOrders;
    hide ChargedBy;
    hide Leaves;
    hide FilledFrom;
    hide EngineLaws.Counts;
  }

  /** `now` is `active` with `o` in the place of the order of its identity, if there is one. */
  ghost predicate Swapped(active: Active, o: Order, now: Active) {
    forall x :: x in now <==> (x in active && x.id != o.id) || (x == o && Lists(active, o.id))
  }

  lemma SwappedLaw(active: Active, o: Order)
    ensures Swapped(active, o, Replaced(active, o))
  {
    var now := Replaced(active, o);
    forall x
      ensures x in now <==> (x in active && x.id != o.id) || (x == o && Lists(active, o.id))
    {
      if x in now {
        var i :| 0 <= i < |now| && now[i] == x;
        assert active[i] in active;
      }
      if x in active && x.id != o.id {
        var i :| 0 <= i < |active| && active[i] == x;
        assert now[i] == x;
      }
      if x == o && Lists(active, o.id) {
        var y :| y in active && y.id == o.id;
        var i :| 0 <= i < |active| && active[i] == y;
        assert now[i] == o;
      }
    }
  }

  lemma {:induction false} FindLaw(active: Active, id: Uuid)
    ensures Find(active, id).Some? <==> Lists(active, id)
    ensures Find(active, id).Some? ==> Find(active, id).value in active && Find(active, id).value.id == id
  {
    if active != [] {
      FindLaw(active[1..], id);
      assert active == [active[0]] + active[1..];
      if active[0].id == id {
        assert Lists(active, id);
      } else if Lists(active, id) {
        var o :| o in active && o.id == id;
        assert o in active[1..];
      }
    }
  }

  /** What becomes of one order at an open.  A stop-limit whose stop is passed is triggered first; an order that is not
      filled and may not rest expires. */
  ghost predicate Opened(s: Settings, active: Active, o: Order, at: Time, open: real, check: RiskCheck, left: Active, result: BrokerResult) {
    var triggers := Waits(o) && AtLeastAsBad(o.intent.side, open, o.intent.stop);
    if at < o.submittedAt then left == active && result == BrokerResult([], [], [])
    else if OpenReaches(o, open) && triggers then
      var t := o.(status := Triggered);
      exists price: real, liquidity: Liquidity, now: Active ::
        OpenTerms(s, o, open, price, liquidity) && Swapped(active, t, now) && Attempted(s, now, t, at, price, liquidity, check, left, [t], result)
    else if OpenReaches(o, open) then
      exists price: real, liquidity: Liquidity ::
        OpenTerms(s, o, open, price, liquidity) && Attempted(s, active, o, at, price, liquidity, check, left, [], result)
    else
      var expires := o.intent.timeInForce == ImmediateOrCancel && Lists(active, o.id);
      && result.fills == [] && result.decisions == []
      && result.updates == (if triggers then [o.(status := Triggered)] else []) + (if expires then [o.(status := Expired)] else [])
      && (if expires then Leaves(active, o.id, left) else if triggers then Swapped(active, o.(status := Triggered), left) else left == active)
  }

  lemma NotFilledLaw(active: Active, o: Order, now: Active, updates: seq<Order>)
    requires now == active || exists t: Order :: t.id == o.id && Swapped(active, t, now)
    ensures var expires := o.intent.timeInForce == ImmediateOrCancel && Lists(active, o.id);
            match NotFilled(now, o, updates)
            case Success((left, result)) =>
              && result.fills == [] && result.decisions == [] && result.updates == updates + (if expires then [o.(status := Expired)] else [])
              && (if expires then Leaves(active, o.id, left) else left == now)
            case Failure(_) => false
  {
    FindLaw(now, o.id);
    WithoutLaw(now, o.id);
    hide Without;
    hide Find;
    assert updates + [] == updates;
    if now != active {
      var t: Order :| t.id == o.id && Swapped(active, t, now);
      assert Lists(now, o.id) <==> Lists(active, o.id) by {
        if Lists(now, o.id) {
          var x :| x in now && x.id == o.id;
        }
        if Lists(active, o.id) {
          assert t in now;
        }
      }
    }
  }

  lemma OpenOneLaw(s: Settings, active: Active, o: Order, at: Time, open: real, check: RiskCheck)
    ensures match OpenOne(s, active, o, at, open, check)
            case Failure(_) => at >= o.submittedAt && OpenReaches(o, open)
            case Success((left, result)) => Opened(s, active, o, at, open, check, left, result)
  {
    hide FillOrder;
    hide NotFilled;
    hide Attempted;
    hide Swapped;
    hide Leaves;
    hide Replaced;
    hide SlippedBy;
    var r := OpenOne(s, active, o, at, open, check);
    NotFilledLaw(active, o, active, []);
    FillOrderLaw(s, active, o, at, open, Taker, true, check);
    FillOrderLaw(s, active, o, at, open, Maker, false, check);
    if Waits(o) {
      WaitsLaw(s, active, o, at, open, check);
    } else if r.Success? && at >= o.submittedAt && OpenReaches(o, open) {
      var slip := o.intent.orderType == Market || o.intent.orderType == Stop;
      var liquidity := if slip then Taker else Maker;
      assert r == FillOrder(s, active, o, at, open, liquidity, slip, check);
      var price: real :| (if slip then SlippedBy(o.intent.side, price, open, s.adverseBps) else price == open)
                         && Attempted(s, active, o, at, price, liquidity, check, r.value.0, [], r.value.1);
      assert OpenTerms(s, o, open, price, liquidity);
    }
  }

  lemma WaitsLaw(s: Settings, active: Active, o: Order, at: Time, open: real, check: RiskCheck)
    requires Waits(o)
    ensures match OpenOne(s, active, o, at, open, check)
            case Failure(_) => at >= o.submittedAt && OpenReaches(o, open)
            case Success((left, result)) => Opened(s, active, o, at, open, check, left, result)
  {
    hide FillOrder;
    hide NotFilled;
    hide Attempted;
    hide Swapped;
    hide Leaves;
    hide Replaced;
    var r, t := OpenOne(s, active, o, at, open, check), o.(status := Triggered);
    var now := Replaced(active, t);
    SwappedLaw(active, t);
    NotFilledLaw(active, o, active, []);
    NotFilledLaw(active, o, now, [t]);
    FillOrderLaw(s, now, t, at, open, Taker, false, check);
    if r.Success? && at >= o.submittedAt && OpenReaches(o, open) {
      var filled := FillOrder(s, now, t, at, open, Taker, false, check).value;
      assert Attempted(s, now, t, at, open, Taker, check, filled.0, [], filled.1);
      AttemptedAfter(s, now, t, at, open, Taker, check, filled.0, filled.1, [t]);
      assert r.value == (filled.0, Joined(BrokerResult([t], [], []), filled.1));
      assert OpenTerms(s, o, open, open, Taker);
    }
  }

  lemma AttemptedAfter(s: Settings, active: Active, o: Order, at: Time, price: real, liquidity: Liquidity, check: RiskCheck, left: Active,
                       result: BrokerResult, before: seq<Order>)
    requires Attempted(s, active, o, at, price, liquidity, check, left, [], result)
    ensures Attempted(s, active, o, at, price, liquidity, check, left, before, Joined(BrokerResult(before, [], []), result))
  {
    hide ActiveOrders;
    hide ChargedBy;
    hide Leaves;
    hide FilledFrom;
    hide EngineLaws.Counts;
    var joined := Joined(BrokerResult(before, [], []), result);
    assert [] + result.fills == result.fills && [] + result.decisions == result.decisions;
  }

  /** What becomes of one order at a completed bar: one submitted strictly earlier, that may rest, is filled on the terms of
      the bar, or triggered when the bar has passed its stop. */
  ghost predicate Completes(s: Settings, active: Active, o: Order, at: Time, p: Prices, check: RiskCheck, left: Active, result: BrokerResult) {
    var triggers := Waits(o) && AtLeastAsBad(o.intent.side, if o.intent.side == Buy then p.high else p.low, o.intent.stop);
    if at <= o.submittedAt || o.intent.timeInForce == ImmediateOrCancel then left == active && result == BrokerResult([], [], [])
    else if BarReaches(o, p) then
      exists price: real, liquidity: Liquidity :: BarTerms(s, o, price, liquidity) && Attempted(s, active, o, at, price, liquidity, check, left, [], result)
    else if triggers then
      Swapped(active, o.(status := Triggered), left) && result == BrokerResult([o.(status := Triggered)], [], [])
    else left == active && result == BrokerResult([], [], [])
  }

  lemma CompleteOneLaw(s: Settings, active: Active, o: Order, at: Time, p: Prices, check: RiskCheck)
    ensures match CompleteOne(s, active, o, at, p, check)
            case Failure(_) => at > o.submittedAt && o.intent.timeInForce != ImmediateOrCancel && BarReaches(o, p)
            case Success((left, result)) => Completes(s, active, o, at, p, check, left, result)
  {
    hide FillOrder;
    hide Attempted;
    hide Swapped;
    hide Replaced;
    hide SlippedBy;
    SwappedLaw(active, o.(status := Triggered));
    var r, intent := CompleteOne(s, active, o, at, p, check), o.intent;
    if at > o.submittedAt && intent.timeInForce != ImmediateOrCancel && BarReaches(o, p) {
      var stops := intent.orderType == Stop;
      var base := if stops then intent.stop.value else intent.limit.value;
      var liquidity := if stops then Taker else Maker;
      assert r == FillOrder(s, active, o, at, base, liquidity, stops, check);
      FillOrderLaw(s, active, o, at, base, liquidity, stops, check);
      if r.Success? {
        var price: real :| (if stops then SlippedBy(intent.side, price, base, s.adverseBps) else price == base)
                           && Attempted(s, active, o, at, price, liquidity, check, r.value.0, [], r.value.1);
        assert BarTerms(s, o, price, liquidity);
      }
    }
  }

  // ---------------------------------------------------------------- all the orders of a series

  predicate TriedAtOpen(o: Order, at: Time, open: real) {
    at >= o.submittedAt && OpenReaches(o, open)
  }

  predicate TriedInBar(o: Order, at: Time, p: Prices) {
    at > o.submittedAt && o.intent.timeInForce != ImmediateOrCancel && BarReaches(o, p)
  }

  /** A fill of an order on the terms of an open. */
  ghost predicate OpenFill(s: Settings, o: Order, at: Time, open: real, f: GoodFill) {
    && TriedAtOpen(o, at, open)
    && exists liquidity: Liquidity :: OpenTerms(s, o, open, f.price, liquidity) && FilledAs(s, o, at, liquidity, f)
  }

  ghost predicate BarFill(s: Settings, o: Order, at: Time, p: Prices, f: GoodFill) {
    && TriedInBar(o, at, p)
    && exists liquidity: Liquidity :: BarTerms(s, o, f.price, liquidity) && FilledAs(s, o, at, liquidity, f)
  }

  /** The whole order, at that instant, with its fee. */
  predicate FilledAs(s: Settings, o: Order, at: Time, liquidity: Liquidity, f: GoodFill) {
    FilledFrom(s, o, at, f.price, f.fee, f) && ChargedBy(f.fee, f.price, f.quantity, if liquidity == Maker then s.makerBps else s.takerBps)
  }

  lemma AttemptFills(s: Settings, active: Active, o: Order, at: Time, price: real, liquidity: Liquidity, check: RiskCheck, left: Active,
                     before: seq<Order>, result: BrokerResult)
    requires Attempted(s, active, o, at, price, liquidity, check, left, before, result)
    ensures |result.decisions| == 1 && forall f :: f in result.fills ==> f.price == price && FilledAs(s, o, at, liquidity, f)
  {
    hide ActiveOrders;
    hide ChargedBy;
    hide Leaves;
    hide EngineLaws.Counts;
  }

  lemma SameFillOf(s: Settings, o: Order, t: Order, at: Time, liquidity: Liquidity, f: GoodFill)
    requires t == o.(status := t.status) && FilledAs(s, t, at, liquidity, f)
    ensures FilledAs(s, o, at, liquidity, f)
  {
  }

  lemma OpenOneTrades(s: Settings, active: Active, o: Order, at: Time, open: real, check: RiskCheck)
    ensures OpenOne(s, active, o, at, open, check).Success? ==>
              var result := OpenOne(s, active, o, at, open, check).value.1;
              && |result.decisions| == (if TriedAtOpen(o, at, open) then 1 else 0)
              && forall f :: f in result.fills ==> OpenFill(s, o, at, open, f)
  {
    hide OpenOne;
    hide OpenTerms;
    hide OpenReaches;
    hide Attempted;
    hide Swapped;
    hide Leaves;
    hide FilledAs;
    OpenOneLaw(s, active, o, at, open, check);
    var r := OpenOne(s, active, o, at, open, check);
    if r.Success? && TriedAtOpen(o, at, open) {
      var (left, result) := r.value;
      if Waits(o) && AtLeastAsBad(o.intent.side, open, o.intent.stop) {
        var t := o.(status := Triggered);
        var price: real, liquidity: Liquidity, now: Active :|
          OpenTerms(s, o, open, price, liquidity) && Swapped(active, t, now) && Attempted(s, now, t, at, price, liquidity, check, left, [t], result);
        AttemptFills(s, now, t, at, price, liquidity, check, left, [t], result);
        forall f | f in result.fills
          ensures OpenFill(s, o, at, open, f)
        {
          SameFillOf(s, o, t, at, liquidity, f);
        }
      } else {
        var price: real, liquidity: Liquidity :|
          OpenTerms(s, o, open, price, liquidity) && Attempted(s, active, o, at, price, liquidity, check, left, [], result);
        AttemptFills(s, active, o, at, price, liquidity, check, left, [], result);
      }
    }
  }

  lemma CompleteOneTrades(s: Settings, active: Active, o: Order, at: Time, p: Prices, check: RiskCheck)
    ensures CompleteOne(s, active, o, at, p, check).Success? ==>
              var result := CompleteOne(s, active, o, at, p, check).value.1;
              && |result.decisions| == (if TriedInBar(o, at, p) then 1 else 0)
              && forall f :: f in result.fills ==> BarFill(s, o, at, p, f)
  {
    hide CompleteOne;
    hide BarTerms;
    hide BarReaches;
    hide Attempted;
    hide Swapped;
    hide FilledAs;
    CompleteOneLaw(s, active, o, at, p, check);
    var r := CompleteOne(s, active, o, at, p, check);
    if r.Success? && TriedInBar(o, at, p) {
      var (left, result) := r.value;
      var price: real, liquidity: Liquidity :| BarTerms(s, o, price, liquidity) && Attempted(s, active, o, at, price, liquidity, check, left, [], result);
      AttemptFills(s, active, o, at, price, liquidity, check, left, [], result);
    }
  }

  function TriedCountAtOpen(orders: seq<Order>, at: Time, open: real): nat {
    if orders == [] then 0
    else TriedCountAtOpen(orders[..|orders| - 1], at, open) + (if TriedAtOpen(orders[|orders| - 1], at, open) then 1 else 0)
  }

  function TriedCountInBar(orders: seq<Order>, at: Time, p: Prices): nat {
    if orders == [] then 0
    else TriedCountInBar(orders[..|orders| - 1], at, p) + (if TriedInBar(orders[|orders| - 1], at, p) then 1 else 0)
  }

  /** At an open, every order whose terms it meets is tried, and no other; and each fill is of one of them, on its terms. */
  lemma {:induction false} OpenAllLaw(s: Settings, active: Active, orders: seq<Order>, at: Time, open: real, check: RiskCheck)
    ensures OpenAll(s, active, orders, at, open, check).Success? ==>
              var result := OpenAll(s, active, orders, at, open, check).value.1;
              && |result.decisions| == TriedCountAtOpen(orders, at, open)
              && forall f :: f in result.fills ==> exists o :: o in orders && OpenFill(s, o, at, open, f)
    decreases |orders|
  {
    hide OpenOne;
    hide OpenFill;
    hide TriedAtOpen;
    if orders != [] {
      var front, last := orders[..|orders| - 1], orders[|orders| - 1];
      assert forall o :: o in front ==> o in orders;
      assert last in orders;
      OpenAllLaw(s, active, front, at, open, check);
      var r := OpenAll(s, active, front, at, open, check);
      if r.Success? {
        OpenOneTrades(s, r.value.0, last, at, open, check);
        var t := OpenOne(s, r.value.0, last, at, open, check);
        if t.Success? {
          var result := OpenAll(s, active, orders, at, open, check).value.1;
          assert result == Joined(r.value.1, t.value.1);
          forall f | f in result.fills
            ensures exists o :: o in orders && OpenFill(s, o, at, open, f)
          {
            if f in t.value.1.fills {
              assert OpenFill(s, last, at, open, f);
            } else {
              var o :| o in front && OpenFill(s, o, at, open, f);
            }
          }
        }
      }
    }
  }

  /** So in a completed bar. */
  lemma {:induction false} CompleteAllLaw(s: Settings, active: Active, orders: seq<Order>, at: Time, p: Prices, check: RiskCheck)
    ensures CompleteAll(s, active, orders, at, p, check).Success? ==>
              var result := CompleteAll(s, active, orders, at, p, check).value.1;
              && |result.decisions| == TriedCountInBar(orders, at, p)
              && forall f :: f in result.fills ==> exists o :: o in orders && BarFill(s, o, at, p, f)
    decreases |orders|
  {
    hide CompleteOne;
    hide BarFill;
    hide TriedInBar;
    if orders != [] {
      var front, last := orders[..|orders| - 1], orders[|orders| - 1];
      assert forall o :: o in front ==> o in orders;
      assert last in orders;
      CompleteAllLaw(s, active, front, at, p, check);
      var r := CompleteAll(s, active, front, at, p, check);
      if r.Success? {
        CompleteOneTrades(s, r.value.0, last, at, p, check);
        var t := CompleteOne(s, r.value.0, last, at, p, check);
        if t.Success? {
          var result := CompleteAll(s, active, orders, at, p, check).value.1;
          assert result == Joined(r.value.1, t.value.1);
          forall f | f in result.fills
            ensures exists o :: o in orders && BarFill(s, o, at, p, f)
          {
            if f in t.value.1.fills {
              assert BarFill(s, last, at, p, f);
            } else {
              var o :| o in front && BarFill(s, o, at, p, f);
            }
          }
        }
      }
    }
  }

  // ---------------------------------------------------------------- the broker's book of orders

  /** The active orders of a series, or all of them: each once, by time of submission and then identity. */
  lemma ActiveLaw(active: Active, key: Option<Digest>)
    ensures var orders := ActiveOrders(active, key);
            && (forall o :: o in orders <==> o in active && (key.None? || o.series.digest == key.value))
            && (key.None? ==> multiset(orders) == multiset(active))
            && forall i, j :: 0 <= i < j < |orders| ==>
                 orders[i].submittedAt < orders[j].submittedAt || (orders[i].submittedAt == orders[j].submittedAt && orders[i].id <= orders[j].id)
  {
    var chosen := if key.None? then active else Filter(active, OfSeries(key.value));
    SortElements(chosen, Earlier);
    SortOrdered(chosen, Earlier);
    forall o
      ensures o in ActiveOrders(active, key) <==> o in active && (key.None? || o.series.digest == key.value)
    {
      InMultiset(ActiveOrders(active, key), chosen, o);
      if key.Some? {
        FilterMember(active, OfSeries(key.value), o);
      }
    }
    hide Filter;
    hide Sort;
  }

  /** Submitting an accepted intent makes its order active, in the place of any order of that identity, and a refused one is
      rejected; cancelling takes an active order away and reports it, and an unknown one changes nothing; at the end every
      active order expires. */
  lemma BookLaw(s: Settings, active: Active, intent: Intent, decision: Decision, id: Uuid, at: Time)
    ensures var order := Order(s.orderId(intent), intent.series, intent.at, intent, if decision.accepted then Acknowledged else Rejected);
            match SimulatedVenue(s).submit(active, intent, decision)
            case Failure(_) => false
            case Success((now, result)) =>
              && result == BrokerResult([order], [], [])
              && (if decision.accepted then forall o :: o in now <==> (o in active && o.id != order.id) || o == order else now == active)
    ensures match SimulatedVenue(s).cancel(active, id, at)
            case Failure(_) => false
            case Success((now, result)) =>
              if Lists(active, id) then
                Leaves(active, id, now) && exists o :: o in active && o.id == id && result == BrokerResult([o.(status := Cancelled)], [], [])
              else now == active && result == BrokerResult([], [], [])
    ensures match SimulatedVenue(s).expire(active, at)
            case Failure(_) => false
            case Success((now, result)) =>
              && now == [] && result.fills == [] && result.decisions == [] && |result.updates| == |active|
              && forall i :: 0 <= i < |active| ==> result.updates[i] == ActiveOrders(active, None)[i].(status := Expired)
  {
    WithoutLaw(active, s.orderId(intent));
    WithoutLaw(active, id);
    FindLaw(active, id);
    SortElements(active, Earlier);
    assert |ActiveOrders(active, None)| == |multiset(ActiveOrders(active, None))| == |multiset(active)| == |active|;
    hide Without;
    hide Find;
    hide ActiveOrders;
    hide Lists;
  }
}
