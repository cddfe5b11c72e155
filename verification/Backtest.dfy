/** The event loop (`run` in backtesting/engine.py) as a function of the request.  The broker is any
    deterministic machine and the risk guard any function: each receives what the engine passes it. */
module Backtest {
  import opened Results
  import opened Models
  import opened Accounting
  import opened Sizing
  import opened Events
  import opened Metrics
  import Positions

  datatype OrderType = Market | Limit | Stop | StopLimit
  datatype TimeInForce = GoodTilCancelled | ImmediateOrCancel
  datatype IntentStatus = Created | Submitted | Blocked
  datatype OrderStatus = Acknowledged | Triggered | Filled | Cancelled | Rejected | Expired
  datatype Liquidity = Maker | Taker
  datatype Stage = PreSubmit | PreFill

  datatype EventKind =
    | BarCompleted | MarkUpdated | FundingMet | SignalMet | BarOpened | IntentMade | RiskDecided | OrderMoved(status: OrderStatus)
    | FillMade | PositionShown | AccountShown | NoActionTaken

  /** A fill that its constructor admits, and a book whose positions do. */
  type GoodFill = f: Fill | ValidFill(f)
    witness Fill(0, Series(0, Instrument("", "", "", "", SpotPair, None), ""), 0, Buy, 1.0, 1.0, Spot, 0.0, "")
  type KeyedBook = b: Book | Keyed(b.positions)
    witness Book(0.0, "", 0.0, map[], map[], [], [], [], {}, 0.0, 0.0, 0.0)
  type GoodSizing = c: SizingConfiguration | ValidSizing(c)
    witness SizingConfiguration(FixedQuantity, 1.0, None)

  datatype Configuration = Configuration(
    initialCash: real, currency: string, sizing: GoodSizing, orderType: OrderType, timeInForce: TimeInForce,
    limitOffset: real, stopOffset: real, stopLimitOffset: real, recordZero: bool)

  datatype Intent = Intent(signal: nat, series: Series, at: Time, side: Side, orderType: OrderType, quantity: real,
                           target: real, current: real, delta: real, reference: real, mode: Mode,
                           timeInForce: TimeInForce, limit: Option<real>, stop: Option<real>, status: IntentStatus)

  datatype Order = Order(id: Uuid, series: Series, submittedAt: Time, intent: Intent, status: OrderStatus)

  datatype Decision = Decision(series: Digest, stage: Stage, accepted: bool, reason: string)

  datatype RiskView = RiskView(cash: real, equity: real, peak: real, positions: Held, marks: map<Digest, real>,
                               openOrders: map<Digest, nat>)

  type Guard = (Intent, real, Stage, Time, RiskView, real) -> Decision

  /** The check the broker calls before it fills an order: intent, price, liquidity, fee, and the broker's own
      count of active orders at that moment. */
  type RiskCheck = (Intent, real, Liquidity, real, map<Digest, nat>) -> Decision

  datatype BrokerResult = BrokerResult(updates: seq<Order>, fills: seq<GoodFill>, decisions: seq<Decision>)

  datatype Prices = Prices(open: real, high: real, low: real, close: real)

  type Reply<B> = Result<(B, BrokerResult), string>

  datatype Venue<!B> = Venue(
    initial: B,
    submit: (B, Intent, Decision) -> Reply<B>,
    cancel: (B, Uuid, Time) -> Reply<B>,
    active: (B, Option<Digest>) -> seq<Order>,
    processCompletedBar: (B, Series, Time, Prices, RiskCheck) -> Reply<B>,
    processBarOpen: (B, Series, Time, real, RiskCheck) -> Reply<B>,
    expire: (B, Time) -> Reply<B>)

  datatype Engine<!B> = Engine(config: Configuration, venue: Venue<B>, guard: Guard)

  datatype AuditRow = AuditRow(sequence: nat, at: Time, priority: nat, kind: EventKind, series: Option<Digest>)

  datatype State<B> = State(book: KeyedBook, broker: B, intents: seq<Intent>, decisions: seq<Decision>, orders: map<Uuid, Order>,
                            fills: seq<GoodFill>, payments: seq<FundingPayment>, audit: seq<AuditRow>, curve: seq<Point>)

  // ---------------------------------------------------------------- recording

  function Record<B>(s: State<B>, kind: EventKind, at: Time, priority: nat, series: Option<Digest>): State<B> {
    s.(audit := s.audit + [AuditRow(|s.audit| + 1, at, priority, kind, series)])
  }

  function RecordDecisions<B>(s: State<B>, ds: seq<Decision>, at: Time, priority: nat): State<B> {
    if ds == [] then s
    else
      var t, d := RecordDecisions(s, ds[..|ds| - 1], at, priority), ds[|ds| - 1];
      Record(t.(decisions := t.decisions + [d]), RiskDecided, at, priority, Some(d.series))
  }

  function RecordOrders<B>(s: State<B>, os: seq<Order>, at: Time, priority: nat): State<B> {
    if os == [] then s
    else
      var t, o := RecordOrders(s, os[..|os| - 1], at, priority), os[|os| - 1];
      Record(t.(orders := t.orders[o.id := o]), OrderMoved(o.status), at, priority, Some(o.series.digest))
  }

  lemma FillKeepsKeyed(b: KeyedBook, fill: GoodFill, sequence: nat)
    ensures Keyed(ApplyFill(b, fill, sequence).book.positions)
  {
    hide PostTrade;
    hide PostFee;
    hide Positions.ApplyFillToPosition;
    hide Positions.Shape;
    PositionForLaw(b, fill.series, fill.mode, fill.filledAt);
    var p := PositionFor(b, fill.series, fill.mode, fill.filledAt);
    Positions.ApplyFillLaw(p, fill);
    PostedPositions(b, fill);
  }

  lemma PostedPositions(b: Book, fill: Fill)
    ensures forall t :: PostFee(PostTrade(b, fill, t), fill).positions == b.positions
  {
  }

  function AfterFill(b: KeyedBook, fill: GoodFill, sequence: nat): Result<KeyedBook, Error> {
    FillKeepsKeyed(b, fill, sequence);
    var outcome := ApplyFill(b, fill, sequence);
    if outcome.raised.Some? then Failure(outcome.raised.value) else Success(outcome.book)
  }

  function AfterMark(b: KeyedBook, series: Series, price: real, at: Time, source: MarkSource, sequence: nat): Result<KeyedBook, Error> {
    var outcome := SetMark(b, series, price, at, source, sequence);
    if outcome.raised.Some? then Failure(outcome.raised.value) else Success(outcome.book)
  }

  /** One fill of a broker's result: the fill is recorded, booked, and its position shown. */
  function TakeFill<B>(s: State<B>, fill: GoodFill, at: Time, priority: nat): Result<State<B>, Error> {
    var t := Record(s.(fills := s.fills + [fill]), FillMade, at, priority, Some(fill.series.digest));
    var book :- AfterFill(t.book, fill, |t.audit|);
    Success(Record(t.(book := book), PositionShown, at, priority, Some(fill.series.digest)))
  }

  function TakeFills<B>(s: State<B>, fills: seq<GoodFill>, at: Time, priority: nat): Result<State<B>, Error> {
    if fills == [] then Success(s)
    else
      var t :- TakeFills(s, fills[..|fills| - 1], at, priority);
      TakeFill(t, fills[|fills| - 1], at, priority)
  }

  /** `handle_broker_result`. */
  function Handle<B>(s: State<B>, reply: Reply<B>, at: Time, priority: nat): Result<State<B>, Error> {
    if reply.Failure? then Failure(BrokerRaised)
    else
      var (broker, result) := reply.value;
      var decided := RecordDecisions(s.(broker := broker), result.decisions, at, priority);
      TakeFills(RecordOrders(decided, result.updates, at, priority), result.fills, at, priority)
  }

  // ---------------------------------------------------------------- the risk view

  function MarkPrices(ms: Marks): map<Digest, real> {
    map k | k in ms :: ms[k].price
  }

  function OpenOrders(orders: seq<Order>): map<Digest, nat> {
    if orders == [] then map[]
    else
      var counts, key := OpenOrders(orders[..|orders| - 1]), orders[|orders| - 1].series.digest;
      counts[key := (if key in counts then counts[key] else 0) + 1]
  }

  function ViewWith(b: Book, equity: real, openOrders: map<Digest, nat>): RiskView {
    RiskView(b.cash, equity, b.peak, b.positions, MarkPrices(b.marks), openOrders)
  }

  ghost function View(b: Book, openOrders: map<Digest, nat>): RiskView {
    ViewWith(b, Equity(b), openOrders)
  }

  function CheckWith(guard: Guard, at: Time, view: RiskView): RiskCheck {
    (intent: Intent, price: real, liquidity: Liquidity, fee: real, openOrders: map<Digest, nat>) =>
      guard(intent, price, PreFill, at, view.(openOrders := openOrders), fee)
  }

  // ---------------------------------------------------------------- one handler per kind of event

  ghost function OnCompleted<B>(g: Engine<B>, s: State<B>, at: Time, b: Bar): Result<State<B>, Error> {
    var t := Record(s, BarCompleted, at, 1, Some(b.series.digest));
    var check := CheckWith(g.guard, at, View(t.book, map[]));
    Handle(t, g.venue.processCompletedBar(t.broker, b.series, at, Prices(b.open, b.high, b.low, b.close), check), at, 1)
  }

  function OnMark<B>(s: State<B>, at: Time, series: Series, price: real, source: MarkSource): Result<State<B>, Error> {
    var (kind, priority) := if source == BarOpen then (BarOpened, 5) else (MarkUpdated, 2);
    var t := Record(s, kind, at, priority, Some(series.digest));
    var book :- AfterMark(t.book, series, price, at, source, |t.audit|);
    var u := t.(book := book);
    Success(if series.digest in t.book.positions then Record(u, PositionShown, at, priority, Some(series.digest)) else u)
  }

  ghost function OnOpen<B>(g: Engine<B>, s: State<B>, at: Time, series: Series, price: real): Result<State<B>, Error> {
    var t :- OnMark(s, at, series, price, BarOpen);
    var check := CheckWith(g.guard, at, View(t.book, map[]));
    Handle(t, g.venue.processBarOpen(t.broker, series, at, price, check), at, 5)
  }

  function FundingFlow(quantity: real, mark: real, rate: real): real {
    -quantity * mark * rate
  }

  /** `funding_payment_for_position`. */
  function PaymentFor(rate: FundingRate, p: PositionState, mark: real, recordZero: bool): Result<Option<FundingPayment>, Error> {
    if p.mode != LinearPerpetual || p.series.instrument.kind != PerpetualSwap then Success(None)
    else if rate.predictedOnly then Success(None)
    else if !rate.grounded then Failure(UngroundedInterval)
    else
      var flow := FundingFlow(p.quantity, mark, rate.rate);
      if flow == 0.0 && !recordZero then Success(None)
      else Success(Some(FundingPayment(p.series, rate.at, p.quantity, mark, rate.rate, flow)))
  }

  function FundOne<B>(g: Engine<B>, s: State<B>, at: Time, rate: FundingRate, key: Digest): Result<State<B>, Error> {
    if key !in s.book.positions || s.book.positions[key].series.instrument != rate.series.instrument || key !in s.book.marks then Success(s)
    else
      var payment :- PaymentFor(rate, s.book.positions[key], s.book.marks[key].price, g.config.recordZero);
      if payment.None? then Success(s)
      else
        var t := s.(payments := s.payments + [payment.value], book := ApplyFunding(s.book, payment.value));
        Success(Record(t, FundingMet, at, 3, Some(key)))
  }

  function FundAll<B>(g: Engine<B>, s: State<B>, at: Time, rate: FundingRate, keys: seq<Digest>): Result<State<B>, Error> {
    if keys == [] then Success(s)
    else
      var t :- FundAll(g, s, at, rate, keys[..|keys| - 1]);
      FundOne(g, t, at, rate, keys[|keys| - 1])
  }

  ghost predicate Least(k: nat, keys: set<nat>) {
    k in keys && forall j :: j in keys ==> k <= j
  }

  lemma LeastExists(keys: set<nat>)
    requires keys != {}
    ensures exists k :: Least(k, keys)
    decreases keys
  {
    var k :| k in keys;
    if keys - {k} == {} {
      assert keys == {k};
      assert Least(k, keys);
    } else {
      LeastExists(keys - {k});
      var j :| Least(j, keys - {k});
      assert keys == {k} + (keys - {k});
      assert Least(if j <= k then j else k, keys);
    }
  }

  /** `sorted(positions.values(), key=digest)`. */
  ghost function Ascending(keys: set<nat>): seq<nat> {
    if keys == {} then []
    else
      LeastExists(keys);
      var k :| Least(k, keys);
      [k] + Ascending(keys - {k})
  }

  ghost function OnFunding<B>(g: Engine<B>, s: State<B>, at: Time, rate: FundingRate): Result<State<B>, Error> {
    var t := Record(s, FundingMet, at, 3, Some(rate.series.digest));
    FundAll(g, t, at, rate, Ascending(t.book.positions.Keys))
  }

  function CancelAll<B>(g: Engine<B>, s: State<B>, at: Time, orders: seq<Order>): Result<State<B>, Error> {
    if orders == [] then Success(s)
    else
      var t :- CancelAll(g, s, at, orders[..|orders| - 1]);
      Handle(t, g.venue.cancel(t.broker, orders[|orders| - 1].id, at), at, 4)
  }

  function ModeOf(kind: InstrumentKind): Result<Mode, Error> {
    match kind
    case SpotPair => Success(Spot)
    case PerpetualSwap => Success(LinearPerpetual)
    case OtherKind => Failure(UnsupportedInstrument)
  }

  function Away(side: Side, price: real, bps: real): real {
    var offset := price * bps / 10000.0;
    if side == Buy then price + offset else price - offset
  }

  /** `_order_prices`: limit and stop. */
  function OrderPrices(c: Configuration, side: Side, reference: real): (Option<real>, Option<real>) {
    match c.orderType
    case Market => (None, None)
    case Limit => (Some(Away(if side == Buy then Sell else Buy, reference, c.limitOffset)), None)
    case Stop => (None, Some(Away(side, reference, c.stopOffset)))
    case StopLimit =>
      var stop := Away(side, reference, c.stopOffset);
      (Some(Away(side, stop, c.stopLimitOffset)), Some(stop))
  }

  /** `OrderIntent.__post_init__`. */
  predicate ValidIntent(i: Intent) {
    && IntentAgrees(i.side, i.quantity, i.delta) && i.reference > 0.0
    && (i.limit.Some? ==> i.limit.value > 0.0) && (i.stop.Some? ==> i.stop.value > 0.0)
    && (i.orderType in {Limit, StopLimit} ==> i.limit.Some?) && (i.orderType in {Stop, StopLimit} ==> i.stop.Some?)
  }

  function IntentFor(c: Configuration, signal: Signal, at: Time, mode: Mode, sizing: SizingResult, side: Side): Intent {
    var (limit, stop) := OrderPrices(c, side, sizing.reference);
    Intent(signal.digest, signal.series, at, side, c.orderType, Abs(sizing.delta), sizing.target, sizing.current, sizing.delta,
           sizing.reference, mode, c.timeInForce, limit, stop, Created)
  }

  /** What a signal asks for: its mode and sizing, or the exception raised on the way. */
  function SizeFor(g: Engine, book: KeyedBook, at: Time, signal: Signal): (r: Result<(Mode, SizingResult), Error>)
    ensures r.Success? ==> (r.value.1.IsNoAction() <==> r.value.1.side.None?)
  {
    if signal.series.digest !in book.marks then Failure(UnmarkedSignal)
    else
      var mode :- ModeOf(signal.series.instrument.kind);
      var current := PositionFor(book, signal.series, mode, at).quantity;
      var sizing :- SizeSignal(signal.direction, current, book.marks[signal.series.digest].price, g.config.sizing);
      Success((mode, sizing))
  }

  /** A checked intent: it is recorded with its decision, and submitted if the guard accepted it. */
  function Submit<B>(g: Engine<B>, s: State<B>, at: Time, intent: Intent, decision: Decision): Result<State<B>, Error> {
    var marked := intent.(status := if decision.accepted then Submitted else Blocked);
    var t := s.(intents := s.intents + [marked], decisions := s.decisions + [decision]);
    var u := Record(Record(t, IntentMade, at, 4, Some(intent.series.digest)), RiskDecided, at, 4, Some(decision.series));
    if decision.accepted then Handle(u, g.venue.submit(u.broker, marked, decision), at, 4) else Success(u)
  }

  ghost function OnSignal<B>(g: Engine<B>, s: State<B>, at: Time, signal: Signal): Result<State<B>, Error> {
    var key := Some(signal.series.digest);
    var t := Record(s, SignalMet, at, 4, key);
    var u :- CancelAll(g, t, at, g.venue.active(t.broker, key));
    var sized :- SizeFor(g, u.book, at, signal);
    if sized.1.IsNoAction() then Success(Record(u, NoActionTaken, at, 4, key))
    else
      var intent := IntentFor(g.config, signal, at, sized.0, sized.1, sized.1.side.value);
      if !ValidIntent(intent) then Failure(BadIntent)
      else
        var view := View(u.book, OpenOrders(g.venue.active(u.broker, None)));
        Submit(g, u, at, intent, g.guard(intent, intent.reference, PreSubmit, at, view, 0.0))
  }

  ghost function Step<B>(g: Engine<B>, s: State<B>, e: Event): Result<State<B>, Error> {
    match e.payload
    case Completed(b) => OnCompleted(g, s, e.at, b)
    case ClosingMark(b) => OnMark(s, e.at, b.series, b.close, BarClose)
    case Funded(rate) => OnFunding(g, s, e.at, rate)
    case Signalled(signal) => OnSignal(g, s, e.at, signal)
    case Opening(b) => OnOpen(g, s, e.at, b.series, b.open)
  }

  // ---------------------------------------------------------------- the whole run

  function Initial<B>(g: Engine<B>, startedAt: Time): State<B> {
    State(OpenBook(g.config.initialCash, g.config.currency, startedAt), g.venue.initial, [], [], map[], [], [], [], [])
  }

  /** The end of a group of events with one timestamp. */
  ghost function CloseGroup<B>(s: State<B>, at: Time): Result<State<B>, Error> {
    var t := Record(s.(book := SnapshotAccount(s.book, at)), AccountShown, at, 6, None);
    var point :- PointAfter(t.book.accounts);
    Success(t.(curve := t.curve + [point]))
  }

  /** A later timestamp closes the group of the events met so far. */
  ghost function Turn<B>(s: State<B>, met: seq<Event>, at: Time): Result<State<B>, Error> {
    if met != [] && met[|met| - 1].at < at then CloseGroup(s, met[|met| - 1].at) else Success(s)
  }

  /** The state before the accounts of the last timestamp are drawn up. */
  ghost function Play<B>(g: Engine<B>, startedAt: Time, events: seq<Event>): Result<State<B>, Error>
    decreases |events|
  {
    if events == [] then Success(Initial(g, startedAt))
    else
      var front, e := events[..|events| - 1], events[|events| - 1];
      var s :- Play(g, startedAt, front);
      var t :- Turn(s, front, e.at);
      Step(g, t, e)
  }

  /** The state once all of `events` have been met and accounted for. */
  ghost function PlayThrough<B>(g: Engine<B>, startedAt: Time, events: seq<Event>): Result<State<B>, Error>
    requires events != []
  {
    var s :- Play(g, startedAt, events);
    CloseGroup(s, events[|events| - 1].at)
  }

  ghost function Finish<B>(g: Engine<B>, s: State<B>, at: Time): Result<State<B>, Error> {
    Handle(s, g.venue.expire(s.broker, at), at, 7)
  }

  /** A completed run and its metrics, or the exception that ended it. */
  ghost function Run<B>(g: Engine<B>, events: seq<Event>): Result<(State<B>, Summary), Error>
    requires events != []
  {
    var s :- PlayThrough(g, events[0].at, events);
    var t :- Finish(g, s, events[|events| - 1].at);
    var summary :- Summarize(t.book, t.curve, t.fills);
    Success((t, summary))
  }
}
