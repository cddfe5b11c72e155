/** What a run has recorded by an instant depends on nothing after it, and is never rewritten. */
module Lookahead {
  import opened Results
  import opened Models
  import opened Accounting
  import opened Sorting
  import opened Events
  import opened Metrics
  import opened Backtest

  // ---------------------------------------------------------------- only the veiled event matters

  /** Of a bar that opens, a step uses only what is known at its open. */
  lemma StepVeiled<B>(g: Engine<B>, s: State<B>, e: Event, f: Event)
    requires Veil(e) == Veil(f)
    ensures Step(g, s, e) == Step(g, s, f)
  {
    hide OnOpen;
    if e.payload.Opening? {
      var b, c := e.payload.bar, f.payload.bar;
      assert AtOpen(b) == AtOpen(c);
      assert b.series == c.series && b.open == c.open;
    }
  }

  lemma {:induction false} SamePlay<B>(g: Engine<B>, startedAt: Time, xs: seq<Event>, ys: seq<Event>)
    requires Map(xs, Veil) == Map(ys, Veil)
    ensures Play(g, startedAt, xs) == Play(g, startedAt, ys)
    decreases |xs|
  {
    hide Step;
    hide CloseGroup;
    hide Initial;
    assert |xs| == |Map(xs, Veil)| == |Map(ys, Veil)| == |ys|;
    if xs != [] {
      var n := |xs| - 1;
      SameInstant(xs, ys, n);
      assert Map(xs[..n], Veil) == Map(xs, Veil)[..n] == Map(ys[..n], Veil);
      SamePlay(g, startedAt, xs[..n], ys[..n]);
      if n > 0 {
        SameInstant(xs, ys, n - 1);
      }
      var s := Play(g, startedAt, xs[..n]);
      if s.Success? {
        assert Turn(s.value, xs[..n], xs[n].at) == Turn(s.value, ys[..n], ys[n].at);
        var t := Turn(s.value, xs[..n], xs[n].at);
        if t.Success? {
          StepVeiled(g, t.value, xs[n], ys[n]);
        }
      }
    }
  }

  lemma SameInstant(xs: seq<Event>, ys: seq<Event>, i: nat)
    requires Map(xs, Veil) == Map(ys, Veil) && i < |xs|
    ensures i < |ys| && Veil(xs[i]) == Veil(ys[i]) && xs[i].at == ys[i].at
  {
    assert |ys| == |Map(ys, Veil)|;
    assert Map(xs, Veil)[i] == Map(ys, Veil)[i];
  }

  // ---------------------------------------------------------------- nothing recorded is rewritten

  ghost predicate Extends<B>(s: State<B>, t: State<B>) {
    && s.book.ledger <= t.book.ledger && s.book.snapshots <= t.book.snapshots && s.book.accounts <= t.book.accounts
    && s.intents <= t.intents && s.decisions <= t.decisions && s.fills <= t.fills && s.payments <= t.payments
    && s.audit <= t.audit && s.curve <= t.curve
  }

  lemma ExtendsChain<B>(s: State<B>, t: State<B>, u: State<B>)
    requires Extends(s, t) && Extends(t, u)
    ensures Extends(s, u)
  {
  }

  /** What one event adds: rows of its own time and priority, and payments only if it is a funding event. */
  ghost predicate Adds<B>(s: State<B>, t: State<B>, at: Time, priority: nat) {
    && Extends(s, t)
    && (forall i :: |s.audit| <= i < |t.audit| ==> t.audit[i].at == at && t.audit[i].priority == priority)
    && (priority != 3 ==> t.payments == s.payments)
  }

  function PriorityOf(p: Payload): nat {
    match p
    case Completed(_) => 1
    case ClosingMark(_) => 2
    case Funded(_) => 3
    case Signalled(_) => 4
    case Opening(_) => 5
  }

  lemma AddsChain<B>(s: State<B>, t: State<B>, u: State<B>, at: Time, priority: nat)
    requires Adds(s, t, at, priority) && Adds(t, u, at, priority)
    ensures Adds(s, u, at, priority)
  {
    assert forall i :: 0 <= i < |t.audit| ==> u.audit[i] == t.audit[i];
  }

  lemma AddsNothing<B>(s: State<B>, at: Time, priority: nat)
    ensures Adds(s, s, at, priority)
  {
  }

  lemma {:induction false} DecisionsExtend<B>(s: State<B>, ds: seq<Decision>, at: Time, priority: nat)
    ensures Adds(s, RecordDecisions(s, ds, at, priority), at, priority)
    decreases |ds|
  {
    if ds != [] {
      DecisionsExtend(s, ds[..|ds| - 1], at, priority);
    }
  }

  lemma {:induction false} OrdersExtend<B>(s: State<B>, os: seq<Order>, at: Time, priority: nat)
    ensures Adds(s, RecordOrders(s, os, at, priority), at, priority)
    decreases |os|
  {
    if os != [] {
      OrdersExtend(s, os[..|os| - 1], at, priority);
    }
  }

  predicate BookExtends(b: Book, c: Book) {
    b.ledger <= c.ledger && b.snapshots <= c.snapshots && b.accounts <= c.accounts
  }

  lemma FillExtendsBook(b: KeyedBook, fill: GoodFill, sequence: nat)
    ensures AfterFill(b, fill, sequence).Success? ==> BookExtends(b, AfterFill(b, fill, sequence).value)
  {
    hide Keyed;
  }

  lemma MarkExtendsBook(b: KeyedBook, series: Series, price: real, at: Time, source: MarkSource, sequence: nat)
    ensures AfterMark(b, series, price, at, source, sequence).Success? ==>
              BookExtends(b, AfterMark(b, series, price, at, source, sequence).value)
  {
    hide Keyed;
  }

  lemma FillExtends<B>(s: State<B>, fill: GoodFill, at: Time, priority: nat)
    ensures TakeFill(s, fill, at, priority).Success? ==> Adds(s, TakeFill(s, fill, at, priority).value, at, priority)
  {
    hide AfterFill;
    var t := Record(s.(fills := s.fills + [fill]), FillMade, at, priority, Some(fill.series.digest));
    FillExtendsBook(t.book, fill, |t.audit|);
  }

  lemma {:induction false} FillsExtend<B>(s: State<B>, fills: seq<GoodFill>, at: Time, priority: nat)
    ensures TakeFills(s, fills, at, priority).Success? ==> Adds(s, TakeFills(s, fills, at, priority).value, at, priority)
    decreases |fills|
  {
    hide TakeFill;
    hide Adds;
    if fills == [] {
      AddsNothing(s, at, priority);
    } else {
      var front := fills[..|fills| - 1];
      FillsExtend(s, front, at, priority);
      if TakeFills(s, fills, at, priority).Success? {
        var t := TakeFills(s, front, at, priority).value;
        FillExtends(t, fills[|fills| - 1], at, priority);
        AddsChain(s, t, TakeFills(s, fills, at, priority).value, at, priority);
      }
    }
  }

  lemma ExtendsItself<B>(s: State<B>)
    ensures Extends(s, s)
  {
  }

  lemma HandleExtends<B>(s: State<B>, reply: Reply<B>, at: Time, priority: nat)
    ensures Handle(s, reply, at, priority).Success? ==> Adds(s, Handle(s, reply, at, priority).value, at, priority)
  {
    if Handle(s, reply, at, priority).Success? {
      var (broker, result) := reply.value;
      var s0 := s.(broker := broker);
      var s1 := RecordDecisions(s0, result.decisions, at, priority);
      var s2 := RecordOrders(s1, result.updates, at, priority);
      assert Adds(s, s0, at, priority);
      DecisionsExtend(s0, result.decisions, at, priority);
      OrdersExtend(s1, result.updates, at, priority);
      FillsExtend(s2, result.fills, at, priority);
      hide Adds;
      AddsChain(s, s0, s1, at, priority);
      AddsChain(s, s1, s2, at, priority);
      AddsChain(s, s2, Handle(s, reply, at, priority).value, at, priority);
    }
  }

  lemma RecordExtends<B>(s: State<B>, kind: EventKind, at: Time, priority: nat, series: Option<Digest>)
    ensures Adds(s, Record(s, kind, at, priority, series), at, priority)
  {
  }

  lemma MarkExtends<B>(s: State<B>, at: Time, series: Series, price: real, source: MarkSource)
    ensures OnMark(s, at, series, price, source).Success? ==> Adds(s, OnMark(s, at, series, price, source).value, at, if source == BarOpen then 5 else 2)
  {
    hide AfterMark;
    MarkExtendsBook(s.book, series, price, at, source, |s.audit| + 1);
  }

  lemma FundOneExtends<B>(g: Engine<B>, s: State<B>, at: Time, rate: FundingRate, key: Digest)
    ensures FundOne(g, s, at, rate, key).Success? ==> Adds(s, FundOne(g, s, at, rate, key).value, at, 3)
  {
    hide PaymentFor;
  }

  lemma {:induction false} FundAllExtends<B>(g: Engine<B>, s: State<B>, at: Time, rate: FundingRate, keys: seq<Digest>)
    ensures FundAll(g, s, at, rate, keys).Success? ==> Adds(s, FundAll(g, s, at, rate, keys).value, at, 3)
    decreases |keys|
  {
    hide FundOne;
    hide Adds;
    if keys == [] {
      AddsNothing(s, at, 3);
    } else {
      var front := keys[..|keys| - 1];
      FundAllExtends(g, s, at, rate, front);
      if FundAll(g, s, at, rate, keys).Success? {
        var t := FundAll(g, s, at, rate, front).value;
        FundOneExtends(g, t, at, rate, keys[|keys| - 1]);
        AddsChain(s, t, FundAll(g, s, at, rate, keys).value, at, 3);
      }
    }
  }

  lemma {:induction false} CancelExtends<B>(g: Engine<B>, s: State<B>, at: Time, orders: seq<Order>)
    ensures CancelAll(g, s, at, orders).Success? ==> Adds(s, CancelAll(g, s, at, orders).value, at, 4)
    decreases |orders|
  {
    hide Handle;
    hide Adds;
    if orders == [] {
      AddsNothing(s, at, 4);
    } else {
      var front := orders[..|orders| - 1];
      CancelExtends(g, s, at, front);
      if CancelAll(g, s, at, orders).Success? {
        var t := CancelAll(g, s, at, front).value;
        HandleExtends(t, g.venue.cancel(t.broker, orders[|orders| - 1].id, at), at, 4);
        AddsChain(s, t, CancelAll(g, s, at, orders).value, at, 4);
      }
    }
  }

  lemma SubmitExtends<B>(g: Engine<B>, s: State<B>, at: Time, intent: Intent, decision: Decision)
    ensures Submit(g, s, at, intent, decision).Success? ==> Adds(s, Submit(g, s, at, intent, decision).value, at, 4)
  {
    hide Handle;
    var marked := intent.(status := if decision.accepted then Submitted else Blocked);
    var t := s.(intents := s.intents + [marked], decisions := s.decisions + [decision]);
    var u := Record(Record(t, IntentMade, at, 4, Some(intent.series.digest)), RiskDecided, at, 4, Some(decision.series));
    assert Adds(s, u, at, 4);
    if decision.accepted {
      HandleExtends(u, g.venue.submit(u.broker, marked, decision), at, 4);
      hide Adds;
      if Submit(g, s, at, intent, decision).Success? {
        AddsChain(s, u, Submit(g, s, at, intent, decision).value, at, 4);
      }
    }
  }

  lemma SignalExtends<B>(g: Engine<B>, s: State<B>, at: Time, signal: Signal)
    ensures OnSignal(g, s, at, signal).Success? ==> Adds(s, OnSignal(g, s, at, signal).value, at, 4)
  {
    hide Adds;
    hide CancelAll;
    hide Submit;
    hide SizeFor;
    hide IntentFor;
    hide ValidIntent;
    hide View;
    hide OpenOrders;
    if OnSignal(g, s, at, signal).Success? {
      var key := Some(signal.series.digest);
      var t := Record(s, SignalMet, at, 4, key);
      RecordExtends(s, SignalMet, at, 4, key);
      hide Record;
      var cancels := CancelAll(g, t, at, g.venue.active(t.broker, key));
      CancelExtends(g, t, at, g.venue.active(t.broker, key));
      var u, sized := cancels.value, SizeFor(g, cancels.value.book, at, signal).value;
      AddsChain(s, t, u, at, 4);
      if sized.1.IsNoAction() {
        RecordExtends(u, NoActionTaken, at, 4, key);
      } else {
        var intent := IntentFor(g.config, signal, at, sized.0, sized.1, sized.1.side.value);
        var decision := g.guard(intent, intent.reference, PreSubmit, at, View(u.book, OpenOrders(g.venue.active(u.broker, None))), 0.0);
        SubmitExtends(g, u, at, intent, decision);
      }
      AddsChain(s, u, OnSignal(g, s, at, signal).value, at, 4);
    }
  }

  lemma StepExtends<B>(g: Engine<B>, s: State<B>, e: Event)
    ensures Step(g, s, e).Success? ==> Adds(s, Step(g, s, e).value, e.at, PriorityOf(e.payload))
  {
    hide Adds;
    hide Handle;
    hide OnMark;
    hide OnSignal;
    hide FundAll;
    hide View;
    hide CheckWith;
    if Step(g, s, e).Success? {
      match e.payload
      case Completed(b) =>
        var t := Record(s, BarCompleted, e.at, 1, Some(b.series.digest));
        RecordExtends(s, BarCompleted, e.at, 1, Some(b.series.digest));
        HandleExtends(t, g.venue.processCompletedBar(t.broker, b.series, e.at, Prices(b.open, b.high, b.low, b.close),
                                           CheckWith(g.guard, e.at, View(t.book, map[]))), e.at, 1);
        AddsChain(s, t, Step(g, s, e).value, e.at, PriorityOf(e.payload));
      case ClosingMark(b) => MarkExtends(s, e.at, b.series, b.close, BarClose);
      case Funded(rate) =>
        var t := Record(s, FundingMet, e.at, 3, Some(rate.series.digest));
        RecordExtends(s, FundingMet, e.at, 3, Some(rate.series.digest));
        FundAllExtends(g, t, e.at, rate, Ascending(t.book.positions.Keys));
        AddsChain(s, t, Step(g, s, e).value, e.at, PriorityOf(e.payload));
      case Signalled(signal) => SignalExtends(g, s, e.at, signal);
      case Opening(b) =>
        MarkExtends(s, e.at, b.series, b.open, BarOpen);
        var t := OnMark(s, e.at, b.series, b.open, BarOpen).value;
        HandleExtends(t, g.venue.processBarOpen(t.broker, b.series, e.at, b.open, CheckWith(g.guard, e.at, View(t.book, map[]))), e.at, 5);
        AddsChain(s, t, Step(g, s, e).value, e.at, PriorityOf(e.payload));
    }
  }

  lemma CloseGroupExtends<B>(s: State<B>, at: Time)
    ensures CloseGroup(s, at).Success? ==> Extends(s, CloseGroup(s, at).value)
  {
    hide PointAfter;
    hide Equity;
  }

  /** A longer run starts with everything the shorter one recorded, or fails as it did. */
  lemma {:induction false} PlayExtends<B>(g: Engine<B>, startedAt: Time, events: seq<Event>, n: nat)
    requires 0 < n < |events| && events[n - 1].at < events[n].at
    requires Ordered(events, Before)
    ensures PlayThrough(g, startedAt, events[..n]).Failure? ==> Play(g, startedAt, events) == PlayThrough(g, startedAt, events[..n])
    ensures Play(g, startedAt, events).Success? ==>
              PlayThrough(g, startedAt, events[..n]).Success?
              && Extends(PlayThrough(g, startedAt, events[..n]).value, Play(g, startedAt, events).value)
    decreases |events|
  {
    hide Step;
    hide CloseGroup;
    hide Extends;
    var front, e := events[..|events| - 1], events[|events| - 1];
    var inner := Play(g, startedAt, front);
    if n == |front| {
      assert events[..n] == front;
    } else {
      assert front[..n] == events[..n];
      PlayExtends(g, startedAt, front, n);
    }
    if Play(g, startedAt, events).Success? {
      var t, u := Turn(inner.value, front, e.at).value, Play(g, startedAt, events).value;
      StepExtends(g, t, e);
      var early := PlayThrough(g, startedAt, events[..n]).value;
      if n == |front| {
        assert t == early;
        ExtendsItself(t);
      } else {
        TurnExtends(inner.value, front, e.at);
        ExtendsChain(early, inner.value, t);
      }
      ExtendsChain(early, t, u);
    }
  }

  lemma TurnExtends<B>(s: State<B>, met: seq<Event>, at: Time)
    ensures Turn(s, met, at).Success? ==> Extends(s, Turn(s, met, at).value)
  {
    hide CloseGroup;
    hide Extends;
    ExtendsItself(s);
    if met != [] {
      CloseGroupExtends(s, met[|met| - 1].at);
    }
  }

  // ---------------------------------------------------------------- the main results

  /** What a run has recorded by `t` is part of what it has recorded at the end; if it failed by `t`, it failed. */
  lemma RunContains<B>(g: Engine<B>, events: seq<Event>, n: nat)
    requires 0 < n <= |events| && Ordered(events, Before)
    requires n < |events| ==> events[n - 1].at < events[n].at
    ensures var early := PlayThrough(g, events[0].at, events[..n]);
            && (early.Failure? ==> Run(g, events) == Failure(early.error))
            && (Run(g, events).Success? ==> early.Success? && Extends(early.value, Run(g, events).value.0))
  {
    hide Play;
    hide CloseGroup;
    hide Handle;
    hide Extends;
    hide Summarize;
    var startedAt, last := events[0].at, events[|events| - 1].at;
    if n == |events| {
      assert events[..n] == events;
    } else {
      PlayExtends(g, startedAt, events, n);
      var played := Play(g, startedAt, events);
      if played.Success? {
        CloseGroupExtends(played.value, last);
      }
    }
    if Run(g, events).Success? {
      var early := PlayThrough(g, startedAt, events[..n]).value;
      var closed := PlayThrough(g, startedAt, events).value;
      if n == |events| {
        ExtendsItself(early);
      } else {
        ExtendsChain(early, Play(g, startedAt, events).value, closed);
      }
      HandleExtends(closed, g.venue.expire(closed.broker, last), last, 7);
      ExtendsChain(early, closed, Run(g, events).value.0);
    }
  }

  /** The engine's state at `t`: what it has done with everything seen by then. */
  ghost function StateAt<B>(g: Engine<B>, r: Request, h: Hashes, t: Time): Result<State<B>, Error>
    requires Seen(r, h, t) != []
  {
    PlayThrough(g, Seen(r, h, t)[0].at, Seen(r, h, t))
  }

  /** No lookahead.  Two requests that agree up to `t` (bars still open at `t` only in series, open time and open
      price) give the same state at `t`: broker, positions, cash, ledger, fills and equity curve alike, or the same
      exception.  Each run ends with all of that recorded unchanged. */
  lemma NoLookahead<B>(g: Engine<B>, r: Request, q: Request, h: Hashes, t: Time)
    requires ValidRequest(r, h) && ValidRequest(q, h) && AgreeUpTo(r, q, t)
    ensures Seen(r, h, t) == [] <==> Seen(q, h, t) == []
    ensures Seen(r, h, t) != [] ==>
              && StateAt(g, r, h, t) == StateAt(g, q, h, t)
              && PartOf(StateAt(g, r, h, t), Run(g, Ordering(r, h)))
              && PartOf(StateAt(g, r, h, t), Run(g, Ordering(q, h)))
  {
    hide PartOf;
    hide AgreeUpTo;
    hide ValidRequest;
    hide Play;
    SameStory(r, q, h, t);
    var xs, ys := Seen(r, h, t), Seen(q, h, t);
    assert |xs| == |Map(xs, Veil)| == |Map(ys, Veil)| == |ys|;
    if xs != [] {
      SameInstant(xs, ys, 0);
      SameInstant(xs, ys, |xs| - 1);
      SamePlay(g, xs[0].at, xs, ys);
      RunContainsState(g, r, h, t);
      RunContainsState(g, q, h, t);
    }
  }

  ghost predicate PartOf<B>(early: Result<State<B>, Error>, run: Result<(State<B>, Summary), Error>) {
    && (early.Failure? ==> run == Failure(early.error))
    && (run.Success? ==> early.Success? && Extends(early.value, run.value.0))
  }

  lemma RunContainsState<B>(g: Engine<B>, r: Request, h: Hashes, t: Time)
    requires Seen(r, h, t) != []
    ensures Ordering(r, h) != [] && PartOf(StateAt(g, r, h, t), Run(g, Ordering(r, h)))
  {
    SeenFirst(r, h, t);
    OrderingIsOrdered(r, h);
    var events, xs := Ordering(r, h), Seen(r, h, t);
    var n := |xs|;
    assert events[..n] == xs && events[0] == xs[0];
    if n < |events| {
      NextIsLater(r, h, t, n);
    }
    hide Play;
    hide Ordering;
    hide Seen;
    hide Ordered;
    RunContains(g, events, n);
  }

  lemma NextIsLater(r: Request, h: Hashes, t: Time, n: nat)
    requires 0 < n == |Seen(r, h, t)| < |Ordering(r, h)|
    ensures Ordering(r, h)[n - 1].at < Ordering(r, h)[n].at
  {
    var events := Ordering(r, h);
    SeenFirst(r, h, t);
    FilterMember(events, By(t), events[n - 1]);
    assert Seen(r, h, t)[n - 1] == events[n - 1];
    assert events == events[..n] + ([events[n]] + events[n + 1..]);
    assert events[..n] == Seen(r, h, t);
    FilterAppend(events[..n], [events[n]] + events[n + 1..], By(t));
    FilterIdle(events, By(t));
    assert ([events[n]] + events[n + 1..])[0] == events[n];
  }

  lemma FilterIdle(xs: seq<Event>, keep: Event -> bool)
    ensures Filter(Filter(xs, keep), keep) == Filter(xs, keep)
  {
    forall x | x in Filter(xs, keep)
      ensures keep(x)
    {
      FilterMember(xs, keep, x);
    }
    FilterAll(Filter(xs, keep), keep);
  }

  /** However bars, signals and funding are listed, the run is the same. */
  lemma SameRunInAnyInputOrder<B>(g: Engine<B>, r: Request, q: Request, h: Hashes)
    requires Rearranged(r, q) && ValidRequest(r, h)
    ensures ValidRequest(q, h) && Ordering(r, h) == Ordering(q, h)
    ensures Ordering(r, h) != [] && Run(g, Ordering(r, h)) == Run(g, Ordering(q, h))
  {
    InputOrderIrrelevant(r, q, h);
    EventOf(r, h, Completion(h)(r.bars[0]));
  }
}
