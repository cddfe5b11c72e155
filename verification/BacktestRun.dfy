/** The imperative event loop: fields appended to as the source appends to its lists, each handler proved equal
    to its function in `Backtest`. */
module BacktestRun {
  import opened Results
  import opened Models
  import opened Accounting
  import opened Sizing
  import opened Events
  import opened Metrics
  import opened Backtest
  import Sorting

  /** A method's outcome is its function's: the same exception, or the same state. */
  ghost predicate Agrees<B>(raised: Option<Error>, value: State<B>, r: Result<State<B>, Error>) {
    match r
    case Success(s) => raised.None? && value == s
    case Failure(e) => raised == Some(e)
  }

  lemma LeastIsUnique(keys: set<nat>, j: nat, k: nat)
    requires Least(j, keys) && Least(k, keys)
    ensures j == k
  {
  }

  method AscendingKeys(all: set<nat>) returns (keys: seq<nat>)
    ensures keys == Ascending(all)
  {
    keys := [];
    var rest := all;
    while rest != {}
      invariant keys + Ascending(rest) == Ascending(all)
      decreases rest
    {
      LeastExists(rest);
      var k :| k in rest && forall j :: j in rest ==> k <= j;
      assert Ascending(rest) == [k] + Ascending(rest - {k}) by {
        forall j | Least(j, rest)
          ensures j == k
        {
          LeastIsUnique(rest, j, k);
        }
      }
      assert keys + Ascending(rest) == (keys + [k]) + Ascending(rest - {k});
      keys, rest := keys + [k], rest - {k};
    }
    assert keys + [] == keys;
  }

  method CountOrders(orders: seq<Order>) returns (counts: map<Digest, nat>)
    ensures counts == OpenOrders(orders)
  {
    counts := map[];
    for i := 0 to |orders|
      invariant counts == OpenOrders(orders[..i])
    {
      assert orders[..i + 1][..i] == orders[..i];
      var key := orders[i].series.digest;
      counts := counts[key := (if key in counts then counts[key] else 0) + 1];
    }
    assert orders[..|orders|] == orders;
  }

  class EventLoop<B> {
    const g: Engine<B>
    const portfolio: Portfolio
    var broker: B
    var intents: seq<Intent>
    var decisions: seq<Decision>
    var orders: map<Uuid, Order>
    var fills: seq<GoodFill>
    var payments: seq<FundingPayment>
    var audit: seq<AuditRow>
    var curve: seq<Point>
    var eventSequence: nat

    predicate Valid()
      reads this, portfolio
    {
      portfolio.Valid() && eventSequence == |audit|
    }

    function Value(): State<B>
      requires Valid()
      reads this, portfolio
    {
      State(portfolio.Value(), broker, intents, decisions, orders, fills, payments, audit, curve)
    }

    constructor (g: Engine<B>, startedAt: Time)
      requires g.config.initialCash >= 0.0
      ensures Valid() && fresh(portfolio) && this.g == g && Value() == Initial(g, startedAt)
    {
      this.g := g;
      portfolio := new Portfolio(g.config.initialCash, g.config.currency, startedAt);
      broker := g.venue.initial;
      intents, decisions, orders, fills, payments, audit, curve := [], [], map[], [], [], [], [];
      eventSequence := 0;
    }

    method RecordEvent(kind: EventKind, at: Time, priority: nat, series: Option<Digest>)
      requires Valid()
      modifies this
      ensures Valid() && Value() == Record(old(Value()), kind, at, priority, series)
    {
      eventSequence := eventSequence + 1;
      audit := audit + [AuditRow(eventSequence, at, priority, kind, series)];
    }

    method HandleDecisions(ds: seq<Decision>, at: Time, priority: nat)
      requires Valid()
      modifies this
      ensures Valid() && Value() == RecordDecisions(old(Value()), ds, at, priority)
    {
      hide Record;
      for i := 0 to |ds|
        invariant Valid() && Value() == RecordDecisions(old(Value()), ds[..i], at, priority)
      {
        assert ds[..i + 1][..i] == ds[..i];
        decisions := decisions + [ds[i]];
        RecordEvent(RiskDecided, at, priority, Some(ds[i].series));
      }
      assert ds[..|ds|] == ds;
    }

    method HandleOrders(updates: seq<Order>, at: Time, priority: nat)
      requires Valid()
      modifies this
      ensures Valid() && Value() == RecordOrders(old(Value()), updates, at, priority)
    {
      hide Record;
      for i := 0 to |updates|
        invariant Valid() && Value() == RecordOrders(old(Value()), updates[..i], at, priority)
      {
        assert updates[..i + 1][..i] == updates[..i];
        orders := orders[updates[i].id := updates[i]];
        RecordEvent(OrderMoved(updates[i].status), at, priority, Some(updates[i].series.digest));
      }
      assert updates[..|updates|] == updates;
    }

    method HandleFill(fill: GoodFill, at: Time, priority: nat) returns (raised: Option<Error>)
      requires Valid()
      modifies this, portfolio
      ensures Valid() && Agrees(raised, Value(), TakeFill(old(Value()), fill, at, priority))
    {
      hide ApplyFill;
      fills := fills + [fill];
      RecordEvent(FillMade, at, priority, Some(fill.series.digest));
      raised := portfolio.Fill(fill, eventSequence);
      if raised.None? {
        RecordEvent(PositionShown, at, priority, Some(fill.series.digest));
      }
    }

    method HandleFills(made: seq<GoodFill>, at: Time, priority: nat) returns (raised: Option<Error>)
      requires Valid()
      modifies this, portfolio
      ensures Valid() && Agrees(raised, Value(), TakeFills(old(Value()), made, at, priority))
    {
      hide TakeFill;
      var i := 0;
      raised := None;
      while i < |made|
        invariant 0 <= i <= |made| && Valid() && raised.None?
        invariant TakeFills(old(Value()), made[..i], at, priority) == Success(Value())
      {
        assert made[..i + 1][..i] == made[..i];
        raised := HandleFill(made[i], at, priority);
        if raised.Some? {
          TakeFillsStop(old(Value()), made, i + 1, at, priority);
          return;
        }
        i := i + 1;
      }
      assert made[..i] == made;
    }

    method HandleBrokerResult(reply: Reply<B>, at: Time, priority: nat) returns (raised: Option<Error>)
      requires Valid()
      modifies this, portfolio
      ensures Valid() && Agrees(raised, Value(), Handle(old(Value()), reply, at, priority))
    {
      if reply.Failure? {
        return Some(BrokerRaised);
      }
      broker := reply.value.0;
      var result := reply.value.1;
      HandleDecisions(result.decisions, at, priority);
      HandleOrders(result.updates, at, priority);
      raised := HandleFills(result.fills, at, priority);
    }

    method RiskViewOf(at: Time, openOrders: map<Digest, nat>) returns (view: RiskView)
      requires Valid()
      ensures view == View(Value().book, openOrders)
    {
      hide ValuationOf;
      hide Equity;
      var v := portfolio.Values(at);
      view := ViewWith(portfolio.Value(), v.worth, openOrders);
    }

    method BarCompleted(at: Time, b: Bar) returns (raised: Option<Error>)
      requires Valid()
      modifies this, portfolio
      ensures Valid() && Agrees(raised, Value(), OnCompleted(g, old(Value()), at, b))
    {
      hide Handle;
      hide Agrees;
      hide View;
      RecordEvent(EventKind.BarCompleted, at, 1, Some(b.series.digest));
      var view := RiskViewOf(at, map[]);
      raised := HandleBrokerResult(
        g.venue.processCompletedBar(broker, b.series, at, Prices(b.open, b.high, b.low, b.close), CheckWith(g.guard, at, view)), at, 1);
    }

    method UpdateMark(at: Time, series: Series, price: real, source: MarkSource) returns (raised: Option<Error>)
      requires Valid()
      modifies this, portfolio
      ensures Valid() && Agrees(raised, Value(), OnMark(old(Value()), at, series, price, source))
    {
      hide SetMark;
      var kind, priority := if source == BarOpen then EventKind.BarOpened else MarkUpdated, if source == BarOpen then 5 else 2;
      RecordEvent(kind, at, priority, Some(series.digest));
      var held := series.digest in portfolio.positions;
      raised := portfolio.Mark(series, price, at, source, eventSequence);
      if raised.None? && held {
        RecordEvent(PositionShown, at, priority, Some(series.digest));
      }
    }

    method BarOpened(at: Time, series: Series, price: real) returns (raised: Option<Error>)
      requires Valid()
      modifies this, portfolio
      ensures Valid() && Agrees(raised, Value(), OnOpen(g, old(Value()), at, series, price))
    {
      hide Handle;
      hide OnMark;
      hide View;
      raised := UpdateMark(at, series, price, BarOpen);
      if raised.None? {
        var view := RiskViewOf(at, map[]);
        raised := HandleBrokerResult(g.venue.processBarOpen(broker, series, at, price, CheckWith(g.guard, at, view)), at, 5);
      }
    }

    method FundPosition(at: Time, rate: FundingRate, key: Digest) returns (raised: Option<Error>)
      requires Valid()
      modifies this, portfolio
      ensures Valid() && Agrees(raised, Value(), FundOne(g, old(Value()), at, rate, key))
    {
      hide PaymentFor;
      hide Post;
      raised := None;
      if key !in portfolio.positions || portfolio.positions[key].series.instrument != rate.series.instrument || key !in portfolio.marks {
        return;
      }
      var payment := PaymentFor(rate, portfolio.positions[key], portfolio.marks[key].price, g.config.recordZero);
      if payment.Failure? {
        return Some(payment.error);
      }
      if payment.value.Some? {
        payments := payments + [payment.value.value];
        portfolio.Fund(payment.value.value);
        RecordEvent(FundingMet, at, 3, Some(key));
      }
    }

    method PayFunding(at: Time, rate: FundingRate) returns (raised: Option<Error>)
      requires Valid()
      modifies this, portfolio
      ensures Valid() && Agrees(raised, Value(), OnFunding(g, old(Value()), at, rate))
    {
      hide FundOne;
      RecordEvent(FundingMet, at, 3, Some(rate.series.digest));
      ghost var start := Value();
      var keys := AscendingKeys(portfolio.positions.Keys);
      var i := 0;
      raised := None;
      while i < |keys|
        invariant 0 <= i <= |keys| && Valid() && raised.None?
        invariant FundAll(g, start, at, rate, keys[..i]) == Success(Value())
      {
        assert keys[..i + 1][..i] == keys[..i];
        raised := FundPosition(at, rate, keys[i]);
        if raised.Some? {
          FundAllStop(g, start, at, rate, keys, i + 1);
          return;
        }
        i := i + 1;
      }
      assert keys[..i] == keys;
    }

    method CancelOrders(at: Time, active: seq<Order>) returns (raised: Option<Error>)
      requires Valid()
      modifies this, portfolio
      ensures Valid() && Agrees(raised, Value(), CancelAll(g, old(Value()), at, active))
    {
      hide Handle;
      var i := 0;
      raised := None;
      while i < |active|
        invariant 0 <= i <= |active| && Valid() && raised.None?
        invariant CancelAll(g, old(Value()), at, active[..i]) == Success(Value())
      {
        assert active[..i + 1][..i] == active[..i];
        raised := HandleBrokerResult(g.venue.cancel(broker, active[i].id, at), at, 4);
        if raised.Some? {
          CancelAllStop(g, old(Value()), at, active, i + 1);
          return;
        }
        i := i + 1;
      }
      assert active[..i] == active;
    }

    method SubmitIntent(at: Time, intent: Intent, decision: Decision) returns (raised: Option<Error>)
      requires Valid()
      modifies this, portfolio
      ensures Valid() && Agrees(raised, Value(), Submit(g, old(Value()), at, intent, decision))
    {
      hide Handle;
      var marked := intent.(status := if decision.accepted then Submitted else Blocked);
      intents := intents + [marked];
      decisions := decisions + [decision];
      RecordEvent(IntentMade, at, 4, Some(intent.series.digest));
      RecordEvent(RiskDecided, at, 4, Some(decision.series));
      raised := None;
      if decision.accepted {
        raised := HandleBrokerResult(g.venue.submit(broker, marked, decision), at, 4);
      }
    }

    method SignalRaised(at: Time, signal: Signal) returns (raised: Option<Error>)
      requires Valid()
      modifies this, portfolio
      ensures Valid() && Agrees(raised, Value(), OnSignal(g, old(Value()), at, signal))
    {
      hide CancelAll;
      hide Submit;
      hide IntentFor;
      hide ValidIntent;
      hide View;
      hide OpenOrders;
      hide SizeSignal;
      var key := Some(signal.series.digest);
      RecordEvent(SignalMet, at, 4, key);
      raised := CancelOrders(at, g.venue.active(broker, key));
      if raised.Some? {
        return;
      }
      var sized := SizeFor(g, portfolio.Value(), at, signal);
      if sized.Failure? {
        return Some(sized.error);
      }
      var mode, sizing := sized.value.0, sized.value.1;
      if sizing.IsNoAction() {
        RecordEvent(NoActionTaken, at, 4, key);
        return;
      }
      var intent := IntentFor(g.config, signal, at, mode, sizing, sizing.side.value);
      if !ValidIntent(intent) {
        return Some(BadIntent);
      }
      var openOrders := CountOrders(g.venue.active(broker, None));
      var view := RiskViewOf(at, openOrders);
      raised := SubmitIntent(at, intent, g.guard(intent, intent.reference, PreSubmit, at, view, 0.0));
    }

    method Meet(e: Event) returns (raised: Option<Error>)
      requires Valid()
      modifies this, portfolio
      ensures Valid() && Agrees(raised, Value(), Step(g, old(Value()), e))
    {
      hide OnCompleted;
      hide OnMark;
      hide OnFunding;
      hide OnSignal;
      hide OnOpen;
      match e.payload
      case Completed(b) => raised := BarCompleted(e.at, b);
      case ClosingMark(b) => raised := UpdateMark(e.at, b.series, b.close, BarClose);
      case Funded(rate) => raised := PayFunding(e.at, rate);
      case Signalled(signal) => raised := SignalRaised(e.at, signal);
      case Opening(b) => raised := BarOpened(e.at, b.series, b.open);
    }

    /** The account snapshot of a timestamp, and its point on the equity curve. */
    method DrawUp(at: Time) returns (raised: Option<Error>)
      requires Valid()
      modifies this, portfolio
      ensures Valid() && Agrees(raised, Value(), CloseGroup(old(Value()), at))
    {
      hide PointAfter;
      hide SnapshotOfAccount;
      portfolio.SnapshotAll(at);
      RecordEvent(AccountShown, at, 6, None);
      var point := PointAfter(portfolio.accounts);
      if point.Failure? {
        return Some(point.error);
      }
      curve := curve + [point.value];
      raised := None;
    }

    /** The events of one timestamp, from `first` on. */
    method Group(events: seq<Event>, first: nat, startedAt: Time) returns (raised: Option<Error>, i: nat)
      requires Valid() && first < |events| && Closed(g, startedAt, events, first, Value())
      modifies this, portfolio
      ensures Valid() && first < i <= |events|
      ensures raised.Some? ==> Play(g, startedAt, events) == Failure(raised.value)
      ensures raised.None? ==>
                && Play(g, startedAt, events[..i]) == Success(Value())
                && events[i - 1].at == events[first].at && (i < |events| ==> events[i].at != events[first].at)
    {
      hide Step;
      hide Play;
      hide Closed;
      raised, i := None, first;
      var at := events[first].at;
      while i < |events| && events[i].at == at
        invariant first <= i <= |events| && Valid() && raised.None?
        invariant i == first ==> Closed(g, startedAt, events, first, Value())
        invariant i > first ==> Play(g, startedAt, events[..i]) == Success(Value()) && events[i - 1].at == at
      {
        PlayOn(g, startedAt, events, first, i, Value());
        raised := Meet(events[i]);
        if raised.Some? {
          PlayStops(g, startedAt, events, i + 1);
          i := i + 1;
          return;
        }
        i := i + 1;
      }
    }

    /** The nested loops over timestamps and over the events of one timestamp. */
    method Loop(events: seq<Event>, startedAt: Time) returns (raised: Option<Error>)
      requires Valid() && Value() == Initial(g, startedAt)
      requires Sorting.Ordered(events, Events.Before) && events != []
      modifies this, portfolio
      ensures Valid() && Agrees(raised, Value(), PlayThrough(g, startedAt, events))
    {
      hide Play;
      hide CloseGroup;
      raised := None;
      var i := 0;
      while i < |events|
        invariant 0 <= i <= |events| && Valid() && raised.None?
        invariant Closed(g, startedAt, events, i, Value())
      {
        var first := i;
        raised, i := Group(events, first, startedAt);
        if raised.Some? {
          return;
        }
        if i < |events| {
          assert Events.Before(events[first], events[i]);
        }
        raised := DrawUp(events[i - 1].at);
        if raised.Some? {
          PlayThroughStops(g, startedAt, events, i);
          return;
        }
      }
      assert events[..i] == events;
    }
  }

  /** `s` is the state in which the group that starts at event `i` begins. */
  ghost predicate Closed<B>(g: Engine<B>, startedAt: Time, events: seq<Event>, i: nat, s: State<B>)
    requires i <= |events|
  {
    if i == 0 then s == Initial(g, startedAt)
    else PlayThrough(g, startedAt, events[..i]) == Success(s) && (i < |events| ==> events[i - 1].at < events[i].at)
  }

  lemma PlayOn<B>(g: Engine<B>, startedAt: Time, events: seq<Event>, first: nat, i: nat, s: State<B>)
    requires first <= i < |events| && events[i].at == events[first].at
    requires i == first ==> Closed(g, startedAt, events, first, s)
    requires i > first ==> Play(g, startedAt, events[..i]) == Success(s) && events[i - 1].at == events[i].at
    ensures Play(g, startedAt, events[..i + 1]) == Step(g, s, events[i])
  {
    hide Step;
    hide CloseGroup;
    hide Initial;
    var now := events[..i + 1];
    assert now[..i] == events[..i] && now[i] == events[i];
    if i == 0 {
      assert Play(g, startedAt, []) == Success(s);
    }
  }

  lemma {:induction false} TakeFillsStop<B>(s: State<B>, fills: seq<GoodFill>, n: nat, at: Time, priority: nat)
    requires n <= |fills| && TakeFills(s, fills[..n], at, priority).Failure?
    ensures TakeFills(s, fills, at, priority) == TakeFills(s, fills[..n], at, priority)
    decreases |fills|
  {
    hide TakeFill;
    if n == |fills| {
      assert fills[..n] == fills;
    } else {
      assert fills[..|fills| - 1][..n] == fills[..n];
      TakeFillsStop(s, fills[..|fills| - 1], n, at, priority);
    }
  }

  lemma {:induction false} FundAllStop<B>(g: Engine<B>, s: State<B>, at: Time, rate: FundingRate, keys: seq<Digest>, n: nat)
    requires n <= |keys| && FundAll(g, s, at, rate, keys[..n]).Failure?
    ensures FundAll(g, s, at, rate, keys) == FundAll(g, s, at, rate, keys[..n])
    decreases |keys|
  {
    hide FundOne;
    if n == |keys| {
      assert keys[..n] == keys;
    } else {
      assert keys[..|keys| - 1][..n] == keys[..n];
      FundAllStop(g, s, at, rate, keys[..|keys| - 1], n);
    }
  }

  lemma {:induction false} CancelAllStop<B>(g: Engine<B>, s: State<B>, at: Time, orders: seq<Order>, n: nat)
    requires n <= |orders| && CancelAll(g, s, at, orders[..n]).Failure?
    ensures CancelAll(g, s, at, orders) == CancelAll(g, s, at, orders[..n])
    decreases |orders|
  {
    hide Handle;
    if n == |orders| {
      assert orders[..n] == orders;
    } else {
      assert orders[..|orders| - 1][..n] == orders[..n];
      CancelAllStop(g, s, at, orders[..|orders| - 1], n);
    }
  }

  lemma {:induction false} PlayStops<B>(g: Engine<B>, startedAt: Time, events: seq<Event>, n: nat)
    requires n <= |events| && Play(g, startedAt, events[..n]).Failure?
    ensures Play(g, startedAt, events) == Play(g, startedAt, events[..n])
    decreases |events|
  {
    hide Step;
    hide Turn;
    if n == |events| {
      assert events[..n] == events;
    } else {
      assert events[..|events| - 1][..n] == events[..n];
      PlayStops(g, startedAt, events[..|events| - 1], n);
    }
  }

  lemma PlayThroughStops<B>(g: Engine<B>, startedAt: Time, events: seq<Event>, n: nat)
    requires 0 < n <= |events| && PlayThrough(g, startedAt, events[..n]).Failure?
    requires n < |events| ==> events[n - 1].at < events[n].at
    ensures PlayThrough(g, startedAt, events).Failure? && PlayThrough(g, startedAt, events).error == PlayThrough(g, startedAt, events[..n]).error
  {
    hide Step;
    hide CloseGroup;
    if n == |events| {
      assert events[..n] == events;
    } else {
      assert events[..n + 1][..n] == events[..n];
      PlayStops(g, startedAt, events, n + 1);
    }
  }

  /** `BacktestEngine.run`: it refuses exactly the invalid requests, and otherwise returns what `Run` defines. */
  method RunBacktest<B>(g: Engine<B>, r: Request, h: Hashes) returns (result: Result<(State<B>, Summary), Error>)
    requires OneSeriesPerDigest(r.bars) && g.config.initialCash >= 0.0
    ensures ValidRequest(r, h) ==> Ordering(r, h) != [] && result == Run(g, Ordering(r, h))
    ensures !ValidRequest(r, h) ==> result.Failure?
  {
    var events := Validate(r, h);
    if events.Failure? {
      return Failure(events.error);
    }
    result := RunEvents(g, r, h, events.value);
  }

  lemma SomeEvents(r: Request, h: Hashes)
    requires ValidRequest(r, h)
    ensures Ordering(r, h) != []
  {
    EventOf(r, h, Completion(h)(r.bars[0]));
  }

  lemma RunUnfolds<B>(g: Engine<B>, events: seq<Event>)
    requires events != []
    ensures Run(g, events)
         == (match PlayThrough(g, events[0].at, events)
             case Failure(e) => Failure(e)
             case Success(s) =>
               match Handle(s, g.venue.expire(s.broker, events[|events| - 1].at), events[|events| - 1].at, 7)
               case Failure(e) => Failure(e)
               case Success(t) =>
                 match Summarize(t.book, t.curve, t.fills)
                 case Failure(e) => Failure(e)
                 case Success(m) => Success((t, m)))
  {
    hide PlayThrough;
    hide Handle;
    hide Summarize;
  }

  method RunEvents<B>(g: Engine<B>, ghost r: Request, ghost h: Hashes, events: seq<Event>) returns (result: Result<(State<B>, Summary), Error>)
    requires ValidRequest(r, h) && events == Ordering(r, h) && g.config.initialCash >= 0.0
    ensures events != [] && result == Run(g, events)
  {
    hide PlayThrough;
    hide Handle;
    hide Summarize;
    SomeEvents(r, h);
    OrderingIsOrdered(r, h);
    hide Ordering;
    hide ValidRequest;
    RunUnfolds(g, events);
    hide Run;
    hide Initial;
    hide Sorting.Ordered;
    var loop := new EventLoop(g, events[0].at);
    var raised := loop.Loop(events, events[0].at);
    if raised.Some? {
      return Failure(raised.value);
    }
    var completedAt := events[|events| - 1].at;
    raised := loop.HandleBrokerResult(g.venue.expire(loop.broker, completedAt), completedAt, 7);
    if raised.Some? {
      return Failure(raised.value);
    }
    var metrics := CalculateMetrics(loop.portfolio.Value(), loop.curve, loop.fills);
    if metrics.Failure? {
      return Failure(metrics.error);
    }
    result := Success((loop.Value(), metrics.value));
  }
}
