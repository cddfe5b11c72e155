/** When no funding can be lost: conditions on the request and the configuration alone. */
module FundingTimes {
  import opened Results
  import opened Models
  import opened MapSums
  import opened Accounting
  import opened RoundTrips
  import opened Events
  import opened Metrics
  import opened Backtest
  import opened Lookahead
  import opened Soundness
  import opened Chronology
  import Runs
  import SimulatedBroker
  import Sorting

  // ---------------------------------------------------------------- what the rows come from

  predicate ClosesAt(met: seq<Event>, at: Time) {
    exists i :: 0 <= i < |met| && met[i].payload.Completed? && met[i].at == at
  }

  predicate FundsAt(met: seq<Event>, at: Time) {
    exists i :: 0 <= i < |met| && met[i].payload.Funded? && met[i].at == at
  }

  /** Rows of priority 1 come from completed bars, and payments from funding records, of their own instant. */
  predicate Sourced(audit: seq<AuditRow>, payments: seq<FundingPayment>, met: seq<Event>) {
    && (forall i :: 0 <= i < |audit| && audit[i].priority == 1 ==> ClosesAt(met, audit[i].at))
    && (forall i :: 0 <= i < |payments| ==> FundsAt(met, payments[i].at))
  }

  predicate PaidAt(before: seq<FundingPayment>, after: seq<FundingPayment>, at: Time) {
    before <= after && forall i :: |before| <= i < |after| ==> after[i].at == at
  }

  lemma {:induction false} FundAllPays<B>(g: Engine<B>, s: State<B>, at: Time, rate: FundingRate, keys: seq<Digest>)
    ensures FundAll(g, s, at, rate, keys).Success? ==> PaidAt(s.payments, FundAll(g, s, at, rate, keys).value.payments, rate.at)
    decreases |keys|
  {
    hide FundOne;
    if keys != [] {
      var front := keys[..|keys| - 1];
      FundAllPays(g, s, at, rate, front);
      if FundAll(g, s, at, rate, keys).Success? {
        var t := FundAll(g, s, at, rate, front).value;
        FundOnePays(g, t, at, rate, keys[|keys| - 1]);
      }
    }
  }

  lemma FundOnePays<B>(g: Engine<B>, s: State<B>, at: Time, rate: FundingRate, key: Digest)
    ensures FundOne(g, s, at, rate, key).Success? ==> PaidAt(s.payments, FundOne(g, s, at, rate, key).value.payments, rate.at)
  {
    hide ApplyFunding;
  }

  lemma StepPays<B>(g: Engine<B>, s: State<B>, e: Event)
    requires WellMade(e) && Step(g, s, e).Success?
    ensures if e.payload.Funded? then PaidAt(s.payments, Step(g, s, e).value.payments, e.at)
            else Step(g, s, e).value.payments == s.payments
  {
    if e.payload.Funded? {
      var rate, key := e.payload.rate, Some(e.payload.rate.series.digest);
      var t := Record(s, FundingMet, e.at, 3, key);
      FundAllPays(g, t, e.at, rate, Ascending(t.book.positions.Keys));
      hide FundAll;
    } else {
      StepExtends(g, s, e);
      hide Step;
      hide Extends;
    }
  }

  lemma SourcedStep<B>(g: Engine<B>, s: State<B>, e: Event, met: seq<Event>)
    requires WellMade(e) && Step(g, s, e).Success? && Sourced(s.audit, s.payments, met)
    ensures var t := Step(g, s, e).value; Sourced(t.audit, t.payments, met + [e])
  {
    StepExtends(g, s, e);
    StepPays(g, s, e);
    hide Step;
    OneMet(met, e);
    var t := Step(g, s, e).value;
    assert forall i :: 0 <= i < |s.audit| ==> t.audit[i] == s.audit[i];
    assert forall i :: 0 <= i < |s.payments| ==> t.payments[i] == s.payments[i];
    hide ClosesAt;
    hide FundsAt;
  }

  lemma OneMet(met: seq<Event>, e: Event)
    ensures forall at :: ClosesAt(met, at) ==> ClosesAt(met + [e], at)
    ensures forall at :: FundsAt(met, at) ==> FundsAt(met + [e], at)
    ensures e.payload.Completed? ==> ClosesAt(met + [e], e.at)
    ensures e.payload.Funded? ==> FundsAt(met + [e], e.at)
  {
    assert (met + [e])[|met|] == e;
    assert forall i :: 0 <= i < |met| ==> (met + [e])[i] == met[i];
  }

  lemma TurnRows<B>(s: State<B>, met: seq<Event>, at: Time)
    requires Turn(s, met, at).Success?
    ensures var t := Turn(s, met, at).value;
            && t.payments == s.payments && t.broker == s.broker
            && (t.audit == s.audit || exists row: AuditRow :: row.priority == 6 && row.kind == AccountShown && t.audit == s.audit + [row])
  {
    hide PointAfter;
    hide SnapshotAccount;
    if met != [] && met[|met| - 1].at < at {
      var t := Turn(s, met, at).value;
      assert t.audit == s.audit + [t.audit[|s.audit|]];
    }
  }

  lemma {:induction false} PlaySourced<B>(g: Engine<B>, startedAt: Time, events: seq<Event>)
    requires forall e :: e in events ==> WellMade(e)
    requires Play(g, startedAt, events).Success?
    ensures var s := Play(g, startedAt, events).value; Sourced(s.audit, s.payments, events)
    decreases |events|
  {
    hide Step;
    hide Turn;
    hide WellMade;
    hide ClosesAt;
    hide FundsAt;
    if events != [] {
      var front, e := events[..|events| - 1], events[|events| - 1];
      PlaySourced(g, startedAt, front);
      var s := Play(g, startedAt, front).value;
      TurnRows(s, front, e.at);
      assert e in events && events == front + [e];
      SourcedStep(g, Turn(s, front, e.at).value, e, front);
    }
  }

  // ---------------------------------------------------------------- a condition on the request

  /** No funding time is the close time of a bar. */
  predicate FundedBetweenCloses(r: Request) {
    forall x, b :: x in r.rates && b in r.bars ==> x.at != b.closeAt
  }

  lemma ApartFromCloses(r: Request, h: Hashes, audit: seq<AuditRow>, payments: seq<FundingPayment>)
    requires FundedBetweenCloses(r) && Sourced(audit, payments, Ordering(r, h))
    ensures Apart(audit, payments)
  {
    var met := Ordering(r, h);
    forall i, j | 0 <= i < |audit| && 0 <= j < |payments|
      ensures !Clash(audit[i], payments[j])
    {
      if Clash(audit[i], payments[j]) {
        var k :| 0 <= k < |met| && met[k].payload.Completed? && met[k].at == audit[i].at;
        var l :| 0 <= l < |met| && met[l].payload.Funded? && met[l].at == payments[j].at;
        EventOf(r, h, met[k]);
        EventOf(r, h, met[l]);
      }
    }
  }

  lemma FinishedRows<B>(g: Engine<B>, r: Request, h: Hashes)
    requires Ordering(r, h) != [] && Run(g, Ordering(r, h)).Success?
    ensures var s := Run(g, Ordering(r, h)).value.0; Sourced(s.audit, s.payments, Ordering(r, h))
  {
    var events := Ordering(r, h);
    forall e | e in events
      ensures WellMade(e)
    {
      EventOf(r, h, e);
    }
    hide Ordering;
    RunStates(g, events);
    hide Run;
    hide ClosesAt;
    hide FundsAt;
    hide WellMade;
    PlaySourced(g, events[0].at, events);
    LastRows(g, events);
  }

  /** Neither the last accounts nor the expiries add rows of priority 1, or payments. */
  lemma LastRows<B>(g: Engine<B>, events: seq<Event>)
    requires events != [] && PlayThrough(g, events[0].at, events).Success?
    requires Finish(g, PlayThrough(g, events[0].at, events).value, events[|events| - 1].at).Success?
    ensures Play(g, events[0].at, events).Success?
    ensures var s, t := Play(g, events[0].at, events).value, Finish(g, PlayThrough(g, events[0].at, events).value, events[|events| - 1].at).value;
            && t.payments == s.payments && s.audit <= t.audit
            && forall i :: |s.audit| <= i < |t.audit| ==> t.audit[i].priority != 1
  {
    hide PointAfter;
    hide SnapshotAccount;
    hide Play;
    hide Handle;
    var closed := PlayThrough(g, events[0].at, events).value;
    HandleExtends(closed, g.venue.expire(closed.broker, events[|events| - 1].at), events[|events| - 1].at, 7);
  }

  ghost predicate TripsHoldAll<B>(g: Engine<B>, r: Request, h: Hashes)
    requires Ordering(r, h) != [] && Run(g, Ordering(r, h)).Success?
  {
    var (s, m) := Run(g, Ordering(r, h)).value;
    && LostFunding(s.book.snapshots, s.book.ledger) == 0.0
    && (forall f :: f in s.fills ==> ValidFill(f)) && FoldBook(s.book, s.fills).Success?
    && SumSeq(m.trips) + Total(FoldBook(s.book, s.fills).value.accumulated) == m.realized - m.fees + m.funding
  }

  lemma ApartLosesNothing<B(!new)>(g: Engine<B>, r: Request, h: Hashes)
    requires Conforming(g.venue) && ValidRequest(r, h) && Ordering(r, h) != [] && Run(g, Ordering(r, h)).Success?
    requires Apart(Run(g, Ordering(r, h)).value.0.audit, Run(g, Ordering(r, h)).value.0.payments)
    ensures TripsHoldAll(g, r, h)
  {
    hide Run;
    hide Ordering;
    hide Apart;
    hide Conforming;
    hide ValidRequest;
    hide LostFunding;
    hide FoldBook;
    hide LargestFall;
    hide Equity;
    Runs.RunReconciles(g, r, h);
    RunIsChronological(g, r, h);
  }

  /** With any conforming broker: if no funding time is the close time of a bar, no funding is lost, and the round
      trips hold all of the run's profit, fees and funding. */
  lemma NothingLostBetweenCloses<B(!new)>(g: Engine<B>, r: Request, h: Hashes)
    requires Conforming(g.venue) && ValidRequest(r, h) && FundedBetweenCloses(r)
    ensures Ordering(r, h) != []
    ensures Run(g, Ordering(r, h)).Success? ==> TripsHoldAll(g, r, h)
  {
    hide Conforming;
    hide Run;
    hide TripsHoldAll;
    Runs.RunReconciles(g, r, h);
    hide ValidRequest;
    hide Ordering;
    hide Apart;
    hide Sourced;
    hide FundedBetweenCloses;
    if Run(g, Ordering(r, h)).Success? {
      FinishedRows(g, r, h);
      var s := Run(g, Ordering(r, h)).value.0;
      ApartFromCloses(r, h, s.audit, s.payments);
      ApartLosesNothing(g, r, h);
    }
  }

  // ---------------------------------------------------------------- a condition on the configuration

  /** The broker's states of interest contain the first, are kept by every call the engine makes under `c`, and fill
      nothing when a bar completes. */
  ghost predicate QuietAtClose<B(!new)>(v: Venue<B>, c: Configuration, fine: B -> bool) {
    && fine(v.initial)
    && (forall b: B, s: Series, t: Time, p: Prices, check: RiskCheck ::
          fine(b) ==> Keeps(v.processCompletedBar(b, s, t, p, check), fine) && FillsNothing(v.processCompletedBar(b, s, t, p, check)))
    && (forall b: B, s: Series, t: Time, open: real, check: RiskCheck :: fine(b) ==> Keeps(v.processBarOpen(b, s, t, open, check), fine))
    && (forall b: B, intent: Intent, decision: Decision ::
          fine(b) && intent.orderType == c.orderType && intent.timeInForce == c.timeInForce ==> Keeps(v.submit(b, intent, decision), fine))
    && (forall b: B, id: Uuid, t: Time :: fine(b) ==> Keeps(v.cancel(b, id, t), fine))
    && (forall b: B, t: Time :: fine(b) ==> Keeps(v.expire(b, t), fine))
  }

  predicate Keeps<B>(reply: Reply<B>, fine: B -> bool) {
    reply.Success? ==> fine(reply.value.0)
  }

  predicate NoCloseFills(audit: seq<AuditRow>) {
    forall i :: 0 <= i < |audit| ==> !(audit[i].kind == FillMade && audit[i].priority == 1)
  }

  lemma {:induction false} FillsKeepBroker<B>(s: State<B>, fills: seq<GoodFill>, at: Time, priority: nat)
    ensures TakeFills(s, fills, at, priority).Success? ==> TakeFills(s, fills, at, priority).value.broker == s.broker
    decreases |fills|
  {
    hide AfterFill;
    if fills != [] {
      FillsKeepBroker(s, fills[..|fills| - 1], at, priority);
    }
  }

  lemma {:induction false} DecisionsAreQuiet<B>(s: State<B>, ds: seq<Decision>, at: Time, priority: nat)
    requires NoCloseFills(s.audit)
    ensures var t := RecordDecisions(s, ds, at, priority); NoCloseFills(t.audit) && t.broker == s.broker
    decreases |ds|
  {
    if ds != [] {
      DecisionsAreQuiet(s, ds[..|ds| - 1], at, priority);
    }
  }

  lemma {:induction false} OrdersAreQuiet<B>(s: State<B>, os: seq<Order>, at: Time, priority: nat)
    requires NoCloseFills(s.audit)
    ensures var t := RecordOrders(s, os, at, priority); NoCloseFills(t.audit) && t.broker == s.broker
    decreases |os|
  {
    if os != [] {
      OrdersAreQuiet(s, os[..|os| - 1], at, priority);
    }
  }

  /** A reply keeps the log quiet if it fills nothing, or is not that of a completed bar. */
  lemma HandleIsQuiet<B>(s: State<B>, reply: Reply<B>, at: Time, priority: nat, fine: B -> bool)
    requires NoCloseFills(s.audit) && Keeps(reply, fine) && (priority == 1 ==> FillsNothing(reply))
    ensures Handle(s, reply, at, priority).Success? ==>
              var t := Handle(s, reply, at, priority).value; fine(t.broker) && NoCloseFills(t.audit)
  {
    if Handle(s, reply, at, priority).Success? {
      var (broker, result) := reply.value;
      var s0 := s.(broker := broker);
      DecisionsAreQuiet(s0, result.decisions, at, priority);
      var s1 := RecordDecisions(s0, result.decisions, at, priority);
      OrdersAreQuiet(s1, result.updates, at, priority);
      var s2 := RecordOrders(s1, result.updates, at, priority);
      hide RecordDecisions;
      hide RecordOrders;
      FillsKeepBroker(s2, result.fills, at, priority);
      if priority != 1 {
        FillsExtend(s2, result.fills, at, priority);
        hide TakeFills;
        hide Extends;
        AddedAreQuiet(s2, Handle(s, reply, at, priority).value, at, priority);
      }
    }
  }

  lemma AddedAreQuiet<B>(s: State<B>, t: State<B>, at: Time, priority: nat)
    requires NoCloseFills(s.audit) && Adds(s, t, at, priority) && priority != 1
    ensures NoCloseFills(t.audit)
  {
    assert forall i :: 0 <= i < |s.audit| ==> t.audit[i] == s.audit[i];
  }

  lemma {:induction false} CancelKeepsFine<B(!new)>(g: Engine<B>, s: State<B>, at: Time, orders: seq<Order>, fine: B -> bool)
    requires QuietAtClose(g.venue, g.config, fine) && fine(s.broker) && NoCloseFills(s.audit)
    ensures CancelAll(g, s, at, orders).Success? ==> fine(CancelAll(g, s, at, orders).value.broker)
    decreases |orders|
  {
    hide NoCloseFills;
    hide Handle;
    if orders != [] {
      var front, id := orders[..|orders| - 1], orders[|orders| - 1].id;
      CancelKeepsFine(g, s, at, front, fine);
      if CancelAll(g, s, at, orders).Success? {
        var t := CancelAll(g, s, at, front).value;
        CancelExtends(g, s, at, front);
        AddedAreQuiet(s, t, at, 4);
        hide Adds;
        HandleIsQuiet(t, g.venue.cancel(t.broker, id, at), at, 4, fine);
      }
    }
  }

  lemma SignalKeepsFine<B(!new)>(g: Engine<B>, s: State<B>, at: Time, signal: Signal, fine: B -> bool)
    requires QuietAtClose(g.venue, g.config, fine) && fine(s.broker) && NoCloseFills(s.audit)
    ensures OnSignal(g, s, at, signal).Success? ==> fine(OnSignal(g, s, at, signal).value.broker)
  {
    hide Handle;
    hide CancelAll;
    hide SizeFor;
    hide OrderPrices;
    hide ValidIntent;
    hide View;
    hide OpenOrders;
    var key := Some(signal.series.digest);
    var t := Record(s, SignalMet, at, 4, key);
    var orders := g.venue.active(t.broker, key);
    CancelKeepsFine(g, t, at, orders, fine);
    var cancels := CancelAll(g, t, at, orders);
    if OnSignal(g, s, at, signal).Success? {
      var u, sized := cancels.value, SizeFor(g, cancels.value.book, at, signal).value;
      if !sized.1.IsNoAction() {
        CancelExtends(g, t, at, orders);
        AddedAreQuiet(t, u, at, 4);
        hide Adds;
        var intent := IntentFor(g.config, signal, at, sized.0, sized.1, sized.1.side.value);
        var decision := g.guard(intent, intent.reference, PreSubmit, at, View(u.book, OpenOrders(g.venue.active(u.broker, None))), 0.0);
        SubmitKeepsFine(g, u, at, intent, decision, fine);
      }
    }
  }

  lemma SubmitKeepsFine<B(!new)>(g: Engine<B>, s: State<B>, at: Time, intent: Intent, decision: Decision, fine: B -> bool)
    requires QuietAtClose(g.venue, g.config, fine) && fine(s.broker) && NoCloseFills(s.audit)
    requires intent.orderType == g.config.orderType && intent.timeInForce == g.config.timeInForce
    ensures Submit(g, s, at, intent, decision).Success? ==> fine(Submit(g, s, at, intent, decision).value.broker)
  {
    hide Handle;
    if decision.accepted {
      var marked := intent.(status := Submitted);
      var t := s.(intents := s.intents + [marked], decisions := s.decisions + [decision]);
      var u := Record(Record(t, IntentMade, at, 4, Some(intent.series.digest)), RiskDecided, at, 4, Some(decision.series));
      HandleIsQuiet(u, g.venue.submit(u.broker, marked, decision), at, 4, fine);
    }
  }

  lemma {:induction false} FundingKeepsBroker<B>(g: Engine<B>, s: State<B>, at: Time, rate: FundingRate, keys: seq<Digest>)
    ensures FundAll(g, s, at, rate, keys).Success? ==> FundAll(g, s, at, rate, keys).value.broker == s.broker
    decreases |keys|
  {
    hide PaymentFor;
    if keys != [] {
      FundingKeepsBroker(g, s, at, rate, keys[..|keys| - 1]);
    }
  }

  lemma StepKeepsFine<B(!new)>(g: Engine<B>, s: State<B>, e: Event, fine: B -> bool)
    requires QuietAtClose(g.venue, g.config, fine) && fine(s.broker) && NoCloseFills(s.audit) && Step(g, s, e).Success?
    ensures var t := Step(g, s, e).value; fine(t.broker) && NoCloseFills(t.audit)
  {
    hide Handle;
    hide FundAll;
    hide AfterMark;
    hide View;
    hide CheckWith;
    if e.payload.Completed? {
      var b := e.payload.bar;
      var t := Record(s, BarCompleted, e.at, 1, Some(b.series.digest));
      HandleIsQuiet(t, g.venue.processCompletedBar(t.broker, b.series, e.at, Prices(b.open, b.high, b.low, b.close),
                                         CheckWith(g.guard, e.at, View(t.book, map[]))), e.at, 1, fine);
    } else {
      StepExtends(g, s, e);
      AddedAreQuiet(s, Step(g, s, e).value, e.at, PriorityOf(e.payload));
      hide Adds;
      match e.payload
      case ClosingMark(b) =>
      case Funded(rate) =>
        var t := Record(s, FundingMet, e.at, 3, Some(rate.series.digest));
        FundingKeepsBroker(g, t, e.at, rate, Ascending(t.book.positions.Keys));
      case Signalled(signal) =>
        SignalKeepsFine(g, s, e.at, signal, fine);
      case Opening(b) =>
        var t := OnMark(s, e.at, b.series, b.open, BarOpen).value;
        MarkExtends(s, e.at, b.series, b.open, BarOpen);
        AddedAreQuiet(s, t, e.at, 5);
        HandleIsQuiet(t, g.venue.processBarOpen(t.broker, b.series, e.at, b.open, CheckWith(g.guard, e.at, View(t.book, map[]))), e.at, 5, fine);
    }
  }

  lemma {:induction false} PlayIsQuiet<B(!new)>(g: Engine<B>, startedAt: Time, events: seq<Event>, fine: B -> bool)
    requires QuietAtClose(g.venue, g.config, fine) && Play(g, startedAt, events).Success?
    ensures var s := Play(g, startedAt, events).value; fine(s.broker) && NoCloseFills(s.audit)
    decreases |events|
  {
    hide Step;
    hide Turn;
    if events != [] {
      var front, e := events[..|events| - 1], events[|events| - 1];
      PlayIsQuiet(g, startedAt, front, fine);
      var s := Play(g, startedAt, front).value;
      TurnRows(s, front, e.at);
      hide QuietAtClose;
      StepKeepsFine(g, Turn(s, front, e.at).value, e, fine);
    }
  }

  /** With a broker that fills nothing when a bar completes, no funding is lost, whatever the times of the request. */
  lemma NothingLostIfQuiet<B(!new)>(g: Engine<B>, r: Request, h: Hashes, fine: B -> bool)
    requires Conforming(g.venue) && QuietAtClose(g.venue, g.config, fine) && ValidRequest(r, h)
    ensures Ordering(r, h) != []
    ensures Run(g, Ordering(r, h)).Success? ==> TripsHoldAll(g, r, h)
  {
    hide Conforming;
    hide Run;
    hide TripsHoldAll;
    hide QuietAtClose;
    Runs.RunReconciles(g, r, h);
    hide ValidRequest;
    hide Ordering;
    if Run(g, Ordering(r, h)).Success? {
      RunIsQuiet(g, Ordering(r, h), fine);
      ApartLosesNothing(g, r, h);
    }
  }

  lemma RunIsQuiet<B(!new)>(g: Engine<B>, events: seq<Event>, fine: B -> bool)
    requires QuietAtClose(g.venue, g.config, fine) && events != [] && Run(g, events).Success?
    ensures NoCloseFills(Run(g, events).value.0.audit)
  {
    hide QuietAtClose;
    RunStates(g, events);
    hide Run;
    LastRows(g, events);
    PlayIsQuiet(g, events[0].at, events, fine);
    hide PlayThrough;
    hide Finish;
    hide Play;
    var s, t := Play(g, events[0].at, events).value, Run(g, events).value.0;
    assert forall i :: 0 <= i < |s.audit| ==> t.audit[i] == s.audit[i];
  }

  // ---------------------------------------------------------------- the simulated broker

  /** Market orders, and orders that must fill at once, are only filled at an open. */
  predicate OnlyAtOpen(intent: Intent) {
    intent.orderType == Market || intent.timeInForce == ImmediateOrCancel
  }

  predicate AllOnlyAtOpen(active: SimulatedBroker.Active) {
    forall i :: 0 <= i < |active| ==> OnlyAtOpen(active[i].intent)
  }

  lemma FewerKeep(active: SimulatedBroker.Active, keep: Order -> bool)
    requires AllOnlyAtOpen(active)
    ensures AllOnlyAtOpen(Sorting.Filter(active, keep))
  {
    var kept := Sorting.Filter(active, keep);
    forall i | 0 <= i < |kept|
      ensures OnlyAtOpen(kept[i].intent)
    {
      Sorting.FilterMember(active, keep, kept[i]);
    }
  }

  lemma ActiveKeep(active: SimulatedBroker.Active, key: Option<Digest>)
    requires AllOnlyAtOpen(active)
    ensures AllOnlyAtOpen(SimulatedBroker.ActiveOrders(active, key))
  {
    if key.Some? {
      FewerKeep(active, SimulatedBroker.OfSeries(key.value));
    }
    var chosen := if key.None? then active else Sorting.Filter(active, SimulatedBroker.OfSeries(key.value));
    var sorted := Sorting.Sort(chosen, SimulatedBroker.Earlier);
    Sorting.SortElements(chosen, SimulatedBroker.Earlier);
    forall i | 0 <= i < |sorted|
      ensures OnlyAtOpen(sorted[i].intent)
    {
      Sorting.InMultiset(sorted, chosen, sorted[i]);
    }
  }

  lemma OpenOneKeeps(s: SimulatedBroker.Settings, active: SimulatedBroker.Active, order: Order, at: Time, open: real, check: RiskCheck)
    requires AllOnlyAtOpen(active) && OnlyAtOpen(order.intent)
    ensures var r := SimulatedBroker.OpenOne(s, active, order, at, open, check); r.Success? ==> AllOnlyAtOpen(r.value.0)
  {
    var triggered := SimulatedBroker.Replaced(active, order.(status := Triggered));
    FewerKeep(active, (o: Order) => o.id != order.id);
    assert AllOnlyAtOpen(triggered);
    FewerKeep(triggered, (o: Order) => o.id != order.id);
    hide SimulatedBroker.Slipped;
    hide SimulatedBroker.AtLimit;
    hide SimulatedBroker.AtStop;
    hide SimulatedBroker.WithinLimit;
    hide SimulatedBroker.Replaced;
    hide SimulatedBroker.Find;
    hide ValidFill;
    hide AllOnlyAtOpen;
    hide Sorting.Filter;
  }

  lemma {:induction false} OpenAllKeep(s: SimulatedBroker.Settings, active: SimulatedBroker.Active, orders: seq<Order>, at: Time, open: real,
                                       check: RiskCheck)
    requires AllOnlyAtOpen(active) && AllOnlyAtOpen(orders)
    ensures var r := SimulatedBroker.OpenAll(s, active, orders, at, open, check); r.Success? ==> AllOnlyAtOpen(r.value.0)
    decreases |orders|
  {
    hide SimulatedBroker.OpenOne;
    if orders != [] {
      var front, last := orders[..|orders| - 1], orders[|orders| - 1];
      OpenAllKeep(s, active, front, at, open, check);
      var r := SimulatedBroker.OpenAll(s, active, front, at, open, check);
      if r.Success? {
        OpenOneKeeps(s, r.value.0, last, at, open, check);
      }
    }
  }

  lemma {:induction false} NothingAtClose(s: SimulatedBroker.Settings, active: SimulatedBroker.Active, orders: seq<Order>, at: Time, p: Prices,
                                          check: RiskCheck)
    requires AllOnlyAtOpen(orders)
    ensures SimulatedBroker.CompleteAll(s, active, orders, at, p, check) == Success((active, SimulatedBroker.NOTHING))
    decreases |orders|
  {
    if orders != [] {
      var last := orders[|orders| - 1];
      NothingAtClose(s, active, orders[..|orders| - 1], at, p, check);
      assert SimulatedBroker.CompleteOne(s, active, last, at, p, check) == Success((active, SimulatedBroker.NOTHING));
      hide SimulatedBroker.CompleteOne;
      assert SimulatedBroker.Joined(SimulatedBroker.NOTHING, SimulatedBroker.NOTHING) == SimulatedBroker.NOTHING;
    }
  }

  lemma SimulatedIsQuiet(s: SimulatedBroker.Settings, c: Configuration)
    requires c.orderType == Market || c.timeInForce == ImmediateOrCancel
    ensures QuietAtClose(SimulatedBroker.SimulatedVenue(s), c, AllOnlyAtOpen)
  {
    var v := SimulatedBroker.SimulatedVenue(s);
    forall b: SimulatedBroker.Active, series: Series, t: Time, p: Prices, check: RiskCheck | AllOnlyAtOpen(b)
      ensures Keeps(v.processCompletedBar(b, series, t, p, check), AllOnlyAtOpen) && FillsNothing(v.processCompletedBar(b, series, t, p, check))
    {
      ActiveKeep(b, Some(series.digest));
      NothingAtClose(s, b, SimulatedBroker.ActiveOrders(b, Some(series.digest)), t, p, check);
    }
    forall b: SimulatedBroker.Active, series: Series, t: Time, open: real, check: RiskCheck | AllOnlyAtOpen(b)
      ensures Keeps(v.processBarOpen(b, series, t, open, check), AllOnlyAtOpen)
    {
      ActiveKeep(b, Some(series.digest));
      OpenAllKeep(s, b, SimulatedBroker.ActiveOrders(b, Some(series.digest)), t, open, check);
    }
    forall b: SimulatedBroker.Active, intent: Intent, decision: Decision
      | AllOnlyAtOpen(b) && intent.orderType == c.orderType && intent.timeInForce == c.timeInForce
      ensures Keeps(v.submit(b, intent, decision), AllOnlyAtOpen)
    {
      FewerKeep(b, (o: Order) => o.id != s.orderId(intent));
    }
    forall b: SimulatedBroker.Active, id: Uuid, t: Time | AllOnlyAtOpen(b)
      ensures Keeps(v.cancel(b, id, t), AllOnlyAtOpen)
    {
      FewerKeep(b, (o: Order) => o.id != id);
    }
  }

  /** The simulated broker with market orders, or with orders that must fill at once, loses no funding. */
  lemma SimulatedLosesNothing(config: Configuration, s: SimulatedBroker.Settings, guard: Guard, r: Request, h: Hashes)
    requires config.orderType == Market || config.timeInForce == ImmediateOrCancel
    requires ValidRequest(r, h)
    ensures Ordering(r, h) != []
    ensures var g := Engine(config, SimulatedBroker.SimulatedVenue(s), guard);
            Run(g, Ordering(r, h)).Success? ==> TripsHoldAll(g, r, h)
  {
    SimulatedBroker.SimulatedConforms(s);
    SimulatedIsQuiet(s, config);
    hide SimulatedBroker.SimulatedVenue;
    hide QuietAtClose;
    hide Conforming;
    hide TripsHoldAll;
    NothingLostIfQuiet(Engine(config, SimulatedBroker.SimulatedVenue(s), guard), r, h, AllOnlyAtOpen);
  }
}
