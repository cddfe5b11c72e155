/** The bar-level simulated broker (execution/brokers/simulated.py, with execution/fees.py and
    execution/slippage.py), as one broker the engine's results apply to. */
module SimulatedBroker {
  import opened Results
  import opened Models
  import opened Sorting
  import opened Events
  import opened Accounting
  import opened Metrics
  import opened RoundTrips
  import opened MapSums
  import opened Backtest
  import opened Soundness
  import Runs
  import Sizing

  /** Identities are functions of what they identify. */
  datatype Settings = Settings(makerBps: real, takerBps: real, currency: string, adverseBps: real,
                               orderId: Intent -> Uuid, fillId: (Uuid, Time) -> Uuid)

  /** The active orders, in the order they were entered. */
  type Active = seq<Order>

  type Outcome = Result<(Active, BrokerResult), string>

  const NOTHING := BrokerResult([], [], [])
  const BEYOND_LIMIT := "limit fill beyond its limit"

  function Joined(r: BrokerResult, more: BrokerResult): BrokerResult {
    BrokerResult(r.updates + more.updates, r.fills + more.fills, r.decisions + more.decisions)
  }

  function Without(active: Active, id: Uuid): Active {
    Filter(active, (o: Order) => o.id != id)
  }

  function Replaced(active: Active, order: Order): Active {
    Map(active, (o: Order) => if o.id == order.id then order else o)
  }

  predicate Earlier(x: Order, y: Order) {
    x.submittedAt < y.submittedAt || (x.submittedAt == y.submittedAt && x.id <= y.id)
  }

  function OfSeries(key: Digest): Order -> bool {
    (o: Order) => o.series.digest == key
  }

  function ActiveOrders(active: Active, key: Option<Digest>): seq<Order> {
    Sort(if key.None? then active else Filter(active, OfSeries(key.value)), Earlier)
  }

  function Find(active: Active, id: Uuid): Option<Order> {
    if active == [] then None else if active[0].id == id then Some(active[0]) else Find(active[1..], id)
  }

  function Submit(s: Settings, active: Active, intent: Intent, decision: Decision): Outcome {
    var order := Order(s.orderId(intent), intent.series, intent.at, intent, if decision.accepted then Acknowledged else Rejected);
    Success((if decision.accepted then Without(active, order.id) + [order] else active, BrokerResult([order], [], [])))
  }

  function Cancel(active: Active, id: Uuid): Outcome {
    var order := Find(active, id);
    if order.None? then Success((active, NOTHING))
    else Success((Without(active, id), BrokerResult([order.value.(status := Cancelled)], [], [])))
  }

  // ---------------------------------------------------------------- one fill

  function Slipped(s: Settings, side: Side, base: real): Result<real, string> {
    if base <= 0.0 then Failure("base_price must be finite and positive")
    else
      var price := base + Sign(side) * (base * s.adverseBps / 10000.0);
      if price <= 0.0 then Failure("adverse slippage produced a non-positive fill price") else Success(price)
  }

  /** A buy pays no more than its limit, a sell receives no less. */
  predicate WithinLimit(intent: Intent, price: real) {
    intent.limit.Some? ==> if intent.side == Buy then price <= intent.limit.value else price >= intent.limit.value
  }

  function FeeFor(s: Settings, price: real, quantity: real, liquidity: Liquidity): real {
    price * quantity * (if liquidity == Maker then s.makerBps else s.takerBps) / 10000.0
  }

  function FillOrder(s: Settings, active: Active, order: Order, at: Time, base: real, liquidity: Liquidity, slip: bool, check: RiskCheck): Outcome {
    var intent := order.intent;
    var price :- if slip then Slipped(s, intent.side, base) else Success(base);
    if !WithinLimit(intent, price) then Failure(BEYOND_LIMIT)
    else
      var fee := FeeFor(s, price, intent.quantity, liquidity);
      var decision := check(intent, price, liquidity, fee, OpenOrders(ActiveOrders(active, None)));
      var fill := Fill(s.fillId(order.id, at), order.series, at, intent.side, intent.quantity, price, intent.mode, fee, s.currency);
      if !decision.accepted then Success((Without(active, order.id), BrokerResult([order.(status := Rejected)], [], [decision])))
      else if !ValidFill(fill) then Failure("fill values must be positive")
      else Success((Without(active, order.id), BrokerResult([order.(status := Filled)], [fill], [decision])))
  }

  predicate AtLimit(intent: Intent, price: real) {
    intent.limit.Some? && if intent.side == Buy then price <= intent.limit.value else price >= intent.limit.value
  }

  predicate AtStop(intent: Intent, price: real) {
    intent.stop.Some? && if intent.side == Buy then price >= intent.stop.value else price <= intent.stop.value
  }

  /** An order that was not filled at this open: immediate-or-cancel orders expire. */
  function NotFilled(active: Active, order: Order, updates: seq<Order>): Outcome {
    if order.intent.timeInForce == ImmediateOrCancel && Find(active, order.id).Some? then
      Success((Without(active, order.id), BrokerResult(updates + [order.(status := Expired)], [], [])))
    else Success((active, BrokerResult(updates, [], [])))
  }

  /** One order at a bar's open. */
  function OpenOne(s: Settings, active: Active, order: Order, at: Time, open: real, check: RiskCheck): Outcome {
    var intent := order.intent;
    if at < order.submittedAt then Success((active, NOTHING))
    else if intent.orderType == Market then FillOrder(s, active, order, at, open, Taker, true, check)
    else if intent.orderType == Limit || (intent.orderType == StopLimit && order.status == Triggered) then
      if AtLimit(intent, open) then FillOrder(s, active, order, at, open, Maker, false, check) else NotFilled(active, order, [])
    else if intent.orderType == Stop then
      if AtStop(intent, open) then FillOrder(s, active, order, at, open, Taker, true, check) else NotFilled(active, order, [])
    else if AtStop(intent, open) then
      var triggered := order.(status := Triggered);
      var now := Replaced(active, triggered);
      if AtLimit(intent, open) then
        var (left, result) :- FillOrder(s, now, triggered, at, open, Taker, false, check);
        Success((left, Joined(BrokerResult([triggered], [], []), result)))
      else NotFilled(now, order, [triggered])
    else NotFilled(active, order, [])
  }

  /** The price a completed bar reaches in an order's favour, or against it. */
  function Best(side: Side, p: Prices): real {
    if side == Buy then p.low else p.high
  }

  function Worst(side: Side, p: Prices): real {
    if side == Buy then p.high else p.low
  }

  /** One order at a completed bar. */
  function CompleteOne(s: Settings, active: Active, order: Order, at: Time, p: Prices, check: RiskCheck): Outcome {
    var intent := order.intent;
    if at <= order.submittedAt || intent.timeInForce == ImmediateOrCancel || intent.orderType == Market then Success((active, NOTHING))
    else if intent.orderType == Limit || (intent.orderType == StopLimit && order.status == Triggered) then
      if AtLimit(intent, Best(intent.side, p)) then FillOrder(s, active, order, at, intent.limit.value, Maker, false, check)
      else Success((active, NOTHING))
    else if !AtStop(intent, Worst(intent.side, p)) then Success((active, NOTHING))
    else if intent.orderType == Stop then FillOrder(s, active, order, at, intent.stop.value, Taker, true, check)
    else Success((Replaced(active, order.(status := Triggered)), BrokerResult([order.(status := Triggered)], [], [])))
  }

  function OpenAll(s: Settings, active: Active, orders: seq<Order>, at: Time, open: real, check: RiskCheck): Outcome {
    if orders == [] then Success((active, NOTHING))
    else
      var (now, result) :- OpenAll(s, active, orders[..|orders| - 1], at, open, check);
      var (after, more) :- OpenOne(s, now, orders[|orders| - 1], at, open, check);
      Success((after, Joined(result, more)))
  }

  function CompleteAll(s: Settings, active: Active, orders: seq<Order>, at: Time, p: Prices, check: RiskCheck): Outcome {
    if orders == [] then Success((active, NOTHING))
    else
      var (now, result) :- CompleteAll(s, active, orders[..|orders| - 1], at, p, check);
      var (after, more) :- CompleteOne(s, now, orders[|orders| - 1], at, p, check);
      Success((after, Joined(result, more)))
  }

  function Expire(active: Active): Outcome {
    Success(([], BrokerResult(Map(ActiveOrders(active, None), (o: Order) => o.(status := Expired)), [], [])))
  }

  /** The broker as the engine sees it. */
  function SimulatedVenue(s: Settings): Venue<Active> {
    Venue(
      [],
      (active: Active, intent: Intent, decision: Decision) => Submit(s, active, intent, decision),
      (active: Active, id: Uuid, at: Time) => Cancel(active, id),
      (active: Active, key: Option<Digest>) => ActiveOrders(active, key),
      (active: Active, series: Series, at: Time, p: Prices, check: RiskCheck) =>
        CompleteAll(s, active, ActiveOrders(active, Some(series.digest)), at, p, check),
      (active: Active, series: Series, at: Time, open: real, check: RiskCheck) =>
        OpenAll(s, active, ActiveOrders(active, Some(series.digest)), at, open, check),
      (active: Active, at: Time) => Expire(active))
  }

  // ---------------------------------------------------------------- what its fills satisfy

  /** A fill of one of the orders, at that instant, of its whole quantity and within its limit. */
  predicate FillsOneOf(f: GoodFill, orders: seq<Order>, at: Time) {
    exists i :: 0 <= i < |orders| && FillOf(f, orders[i], at)
  }

  predicate FillOf(f: GoodFill, o: Order, at: Time) {
    f.filledAt == at && f.series == o.series && f.side == o.intent.side && f.quantity == o.intent.quantity && WithinLimit(o.intent, f.price)
  }

  predicate AllFillsOf(r: Outcome, orders: seq<Order>, at: Time) {
    r.Success? ==> forall i :: 0 <= i < |r.value.1.fills| ==> FillsOneOf(r.value.1.fills[i], orders, at)
  }

  lemma OneFill(s: Settings, active: Active, order: Order, at: Time, base: real, liquidity: Liquidity, slip: bool, check: RiskCheck)
    ensures var r := FillOrder(s, active, order, at, base, liquidity, slip, check);
            r.Success? ==> |r.value.1.fills| <= 1 && forall i :: 0 <= i < |r.value.1.fills| ==> FillOf(r.value.1.fills[i], order, at)
  {
    hide Slipped;
    hide ActiveOrders;
    hide OpenOrders;
    hide Without;
  }

  lemma OpenOneFills(s: Settings, active: Active, order: Order, at: Time, open: real, check: RiskCheck)
    ensures var r := OpenOne(s, active, order, at, open, check);
            r.Success? ==> forall i :: 0 <= i < |r.value.1.fills| ==> FillOf(r.value.1.fills[i], order, at)
  {
    hide FillOrder;
    hide Without;
    OneFill(s, active, order, at, open, Taker, true, check);
    OneFill(s, active, order, at, open, Maker, false, check);
    var triggered := order.(status := Triggered);
    OneFill(s, Replaced(active, triggered), triggered, at, open, Taker, false, check);
  }

  lemma CompleteOneFills(s: Settings, active: Active, order: Order, at: Time, p: Prices, check: RiskCheck)
    ensures var r := CompleteOne(s, active, order, at, p, check);
            r.Success? ==> forall i :: 0 <= i < |r.value.1.fills| ==> FillOf(r.value.1.fills[i], order, at)
  {
    hide FillOrder;
    if order.intent.limit.Some? {
      OneFill(s, active, order, at, order.intent.limit.value, Maker, false, check);
    }
    if order.intent.stop.Some? {
      OneFill(s, active, order, at, order.intent.stop.value, Taker, true, check);
    }
  }

  lemma JoinFills(front: seq<GoodFill>, more: seq<GoodFill>, orders: seq<Order>, at: Time)
    requires orders != []
    requires forall i :: 0 <= i < |front| ==> FillsOneOf(front[i], orders[..|orders| - 1], at)
    requires forall i :: 0 <= i < |more| ==> FillOf(more[i], orders[|orders| - 1], at)
    ensures forall i :: 0 <= i < |front + more| ==> FillsOneOf((front + more)[i], orders, at)
  {
    hide FillOf;
    var all, before := front + more, orders[..|orders| - 1];
    forall i | 0 <= i < |all|
      ensures FillsOneOf(all[i], orders, at)
    {
      if i < |front| {
        var j :| 0 <= j < |before| && FillOf(front[i], before[j], at);
        assert FillOf(all[i], orders[j], at);
      } else {
        assert all[i] == more[i - |front|];
        assert FillOf(all[i], orders[|orders| - 1], at);
      }
    }
  }

  lemma {:induction false} OpenAllFills(s: Settings, active: Active, orders: seq<Order>, at: Time, open: real, check: RiskCheck)
    ensures AllFillsOf(OpenAll(s, active, orders, at, open, check), orders, at)
    decreases |orders|
  {
    hide OpenOne;
    hide FillsOneOf;
    hide FillOf;
    if orders != [] {
      var front, last := orders[..|orders| - 1], orders[|orders| - 1];
      OpenAllFills(s, active, front, at, open, check);
      var r := OpenAll(s, active, front, at, open, check);
      if r.Success? {
        OpenOneFills(s, r.value.0, last, at, open, check);
        var t := OpenOne(s, r.value.0, last, at, open, check);
        if t.Success? {
          JoinFills(r.value.1.fills, t.value.1.fills, orders, at);
        }
      }
    }
  }

  lemma {:induction false} CompleteAllFills(s: Settings, active: Active, orders: seq<Order>, at: Time, p: Prices, check: RiskCheck)
    ensures AllFillsOf(CompleteAll(s, active, orders, at, p, check), orders, at)
    decreases |orders|
  {
    hide CompleteOne;
    hide FillsOneOf;
    hide FillOf;
    if orders != [] {
      var front, last := orders[..|orders| - 1], orders[|orders| - 1];
      CompleteAllFills(s, active, front, at, p, check);
      var r := CompleteAll(s, active, front, at, p, check);
      if r.Success? {
        CompleteOneFills(s, r.value.0, last, at, p, check);
        var t := CompleteOne(s, r.value.0, last, at, p, check);
        if t.Success? {
          JoinFills(r.value.1.fills, t.value.1.fills, orders, at);
        }
      }
    }
  }

  lemma ActiveOfSeries(active: Active, key: Digest)
    ensures forall i :: 0 <= i < |ActiveOrders(active, Some(key))| ==> ActiveOrders(active, Some(key))[i].series.digest == key
  {
    var chosen, orders := Filter(active, OfSeries(key)), ActiveOrders(active, Some(key));
    SortElements(chosen, Earlier);
    forall i | 0 <= i < |orders|
      ensures orders[i].series.digest == key
    {
      InMultiset(orders, chosen, orders[i]);
      FilterMember(active, OfSeries(key), orders[i]);
    }
  }

  lemma FillsAtSeries(r: Outcome, orders: seq<Order>, key: Digest, at: Time)
    requires AllFillsOf(r, orders, at) && forall i :: 0 <= i < |orders| ==> orders[i].series.digest == key
    ensures Fills(r, key, at)
  {
    if r.Success? {
      var fills := r.value.1.fills;
      forall i | 0 <= i < |fills|
        ensures fills[i].series.digest == key && fills[i].filledAt == at
      {
        assert FillsOneOf(fills[i], orders, at);
        var j :| 0 <= j < |orders| && FillOf(fills[i], orders[j], at);
      }
    }
  }

  /** A bar is filled only by orders of its own series at its own instant, in full and within their limits. */
  lemma BarFills(s: Settings, active: Active, series: Series, at: Time, p: Prices, open: real, check: RiskCheck)
    ensures var orders := ActiveOrders(active, Some(series.digest));
            && AllFillsOf(CompleteAll(s, active, orders, at, p, check), orders, at)
            && AllFillsOf(OpenAll(s, active, orders, at, open, check), orders, at)
            && Fills(CompleteAll(s, active, orders, at, p, check), series.digest, at)
            && Fills(OpenAll(s, active, orders, at, open, check), series.digest, at)
  {
    var orders := ActiveOrders(active, Some(series.digest));
    ActiveOfSeries(active, series.digest);
    CompleteAllFills(s, active, orders, at, p, check);
    OpenAllFills(s, active, orders, at, open, check);
    hide ActiveOrders;
    FillsAtSeries(CompleteAll(s, active, orders, at, p, check), orders, series.digest, at);
    FillsAtSeries(OpenAll(s, active, orders, at, open, check), orders, series.digest, at);
  }

  /** The simulated broker keeps the contract that the engine's whole-run results ask of a broker. */
  lemma SimulatedConforms(s: Settings)
    ensures Conforming(SimulatedVenue(s))
  {
    var v := SimulatedVenue(s);
    hide ActiveOrders;
    hide Fills;
    forall active: Active, series: Series, at: Time, p: Prices, check: RiskCheck
      ensures Fills(v.processCompletedBar(active, series, at, p, check), series.digest, at)
    {
      BarFills(s, active, series, at, p, 0.0, check);
    }
    forall active: Active, series: Series, at: Time, open: real, check: RiskCheck
      ensures Fills(v.processBarOpen(active, series, at, open, check), series.digest, at)
    {
      BarFills(s, active, series, at, Prices(0.0, 0.0, 0.0, 0.0), open, check);
    }
  }

  /** Only limit and stop-limit intents carry a limit, as `IntentFor` makes them. */
  predicate LimitFits(intent: Intent) {
    intent.orderType in {Market, Stop} ==> intent.limit.None?
  }

  lemma IntentLimitFits(c: Configuration, signal: Signal, at: Time, mode: Mode, sizing: Sizing.SizingResult, side: Side)
    ensures LimitFits(IntentFor(c, signal, at, mode, sizing, side))
  {
    hide Away;
  }

  /** So the broker's own check that a fill keeps its limit never fails: the branches before it imply it. */
  lemma LimitIsNeverBroken(s: Settings, active: Active, order: Order, at: Time, open: real, p: Prices, check: RiskCheck)
    requires LimitFits(order.intent)
    ensures OpenOne(s, active, order, at, open, check).Failure? ==> OpenOne(s, active, order, at, open, check).error != BEYOND_LIMIT
    ensures CompleteOne(s, active, order, at, p, check).Failure? ==> CompleteOne(s, active, order, at, p, check).error != BEYOND_LIMIT
  {
    hide ActiveOrders;
    hide OpenOrders;
    hide Without;
    hide Replaced;
    hide ValidFill;
  }

  /** With the simulated broker the whole-run results need no assumption about the broker at all. */
  lemma SimulatedRunReconciles(config: Configuration, s: Settings, guard: Guard, r: Request, h: Hashes)
    requires ValidRequest(r, h)
    ensures Ordering(r, h) != []
    ensures match Run(Engine(config, SimulatedVenue(s), guard), Ordering(r, h))
            case Failure(e) => !Internal(e)
            case Success((end, m)) =>
              && m.net == Equity(end.book) - end.book.initialCash == m.realized + m.unrealized + m.funding - m.fees
              && LargestFall(end.book.accounts, m.maxDrawdown)
  {
    SimulatedConforms(s);
    hide Ordering;
    hide Run;
    hide SimulatedVenue;
    hide Conforming;
    hide ValidRequest;
    hide LargestFall;
    hide Equity;
    Runs.RunReconciles(Engine(config, SimulatedVenue(s), guard), r, h);
  }
}
