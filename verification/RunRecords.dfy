/** Where the records of a run come from: every funding payment from a rate, every intent from a signal, both at the last
    price told by then, and every point of the equity curve from an instant at which something happened
    (backtesting/engine.py). */
module RunRecords {
  import opened Results
  import opened MapSums
  import opened Models
  import opened Accounting
  import opened Events
  import opened Backtest
  import opened Marking
  import EngineLaws
  import Lookahead
  import Metrics
  import Positions
  import RoundTrips
  import Runs
  import Soundness
  import Sizing
  import Sorting

  // ---------------------------------------------------------------- payments

  /** A payment that the `i`-th event makes: a settled rate, paid by a perpetual of its own instrument on its value at the
      last price told. */
  ghost predicate PaysFor(p: FundingPayment, met: seq<Event>, i: nat) {
    && i < |met| && met[i].payload.Funded?
    && var rate, mark := met[i].payload.rate, LatestMark(met[..i], p.series.digest);
       && !rate.predictedOnly && rate.grounded
       && p.series.instrument == rate.series.instrument && p.series.instrument.kind == PerpetualSwap
       && p.at == rate.at && p.rate == rate.rate && mark.Some? && p.mark == mark.value.price
       && p.cashFlow == -p.quantity * p.mark * p.rate
  }

  ghost predicate PaidFor(p: FundingPayment, met: seq<Event>) {
    exists i: nat :: PaysFor(p, met, i)
  }

  ghost predicate AllPaidFor(payments: seq<FundingPayment>, met: seq<Event>) {
    forall p :: p in payments ==> PaidFor(p, met)
  }

  lemma PaidForMore(payments: seq<FundingPayment>, met: seq<Event>, e: Event)
    requires AllPaidFor(payments, met)
    ensures AllPaidFor(payments, met + [e])
  {
    forall p | p in payments
      ensures PaidFor(p, met + [e])
    {
      assert PaidFor(p, met);
      var i: nat :| PaysFor(p, met, i);
      assert (met + [e])[..i] == met[..i];
      assert PaysFor(p, met + [e], i);
    }
  }

  lemma PaysNow(b: KeyedBook, rate: FundingRate, keys: seq<Digest>, recordZero: bool, met: seq<Event>, e: Event, p: FundingPayment)
    requires e.payload == Events.Funded(rate) && (forall k :: MarkOf(b.marks, k) == LatestMark(met, k))
    requires p in EngineLaws.PaymentsOn(rate, b, keys, recordZero)
    requires !rate.predictedOnly && !rate.grounded ==> forall k :: !EngineLaws.Owes(rate, b, k)
    ensures PaidFor(p, met + [e])
  {
    EngineLaws.PaymentsAre(rate, b, keys, recordZero);
    var k :| k in keys && EngineLaws.Pays(rate, b, k, recordZero) && p == EngineLaws.Owed(rate, b, k);
    assert b.positions[k].series.digest == k;
    assert (met + [e])[..|met|] == met && (met + [e])[|met|] == e;
    assert MarkOf(b.marks, k) == LatestMark(met, k);
    hide LatestMark;
    assert PaysFor(p, met + [e], |met|);
  }

  lemma StepPays<B>(g: Engine<B>, s: State<B>, met: seq<Event>, e: Event, t: State<B>)
    requires Step(g, s, e) == Success(t) && AllPaidFor(s.payments, met)
    requires forall k :: MarkOf(s.book.marks, k) == LatestMark(met, k)
    ensures AllPaidFor(t.payments, met + [e])
  {
    hide LatestMark;
    PaidForMore(s.payments, met, e);
    if e.payload.Funded? {
      var rate := e.payload.rate;
      assert OnFunding(g, s, e.at, rate) == Success(t);
      hide Step;
      hide OnFunding;
      var keys := EngineLaws.OnFundingLaw(g, s, e.at, rate);
      var paid := EngineLaws.PaymentsOn(rate, s.book, keys, g.config.recordZero);
      assert t.payments == s.payments + paid;
      forall p | p in t.payments
        ensures PaidFor(p, met + [e])
      {
        if p in paid {
          PaysNow(s.book, rate, keys, g.config.recordZero, met, e, p);
        }
      }
    } else {
      Lookahead.StepExtends(g, s, e);
      hide Step;
    }
  }

  // ---------------------------------------------------------------- intents

  /** An intent that the `i`-th event asks for: a signal's, for the difference between its target and what is held, sized
      and priced at the last price told. */
  ghost predicate AskedBy(intent: Intent, c: Configuration, met: seq<Event>, i: nat) {
    && i < |met| && met[i].payload.Signalled?
    && var signal := met[i].payload.signal;
       var mark, sized := LatestMark(met[..i], signal.series.digest), Sizing.SizeSignal(signal.direction, intent.current, intent.reference, c.sizing);
       && intent.signal == signal.digest && intent.series == signal.series && intent.at == met[i].at
       && mark.Some? && intent.reference == mark.value.price && intent.reference > 0.0
       && sized.Success? && intent.target == sized.value.target
       && intent.delta == intent.target - intent.current && intent.delta != 0.0
       && intent.side == (if intent.delta > 0.0 then Buy else Sell) && intent.quantity == Abs(intent.delta)
       && intent.orderType == c.orderType && (intent.limit, intent.stop) == OrderPrices(c, intent.side, intent.reference)
  }

  ghost predicate Asked(intent: Intent, c: Configuration, met: seq<Event>) {
    exists i: nat :: AskedBy(intent, c, met, i)
  }

  ghost predicate AllAsked(intents: seq<Intent>, c: Configuration, met: seq<Event>) {
    forall intent :: intent in intents ==> Asked(intent, c, met)
  }

  lemma AskedByMore(intents: seq<Intent>, c: Configuration, met: seq<Event>, e: Event)
    requires AllAsked(intents, c, met)
    ensures AllAsked(intents, c, met + [e])
  {
    forall intent | intent in intents
      ensures Asked(intent, c, met + [e])
    {
      assert Asked(intent, c, met);
      var i: nat :| AskedBy(intent, c, met, i);
      assert (met + [e])[..i] == met[..i];
      assert AskedBy(intent, c, met + [e], i);
    }
  }

  lemma {:induction false} CancelsAsk<B>(g: Engine<B>, s: State<B>, at: Time, orders: seq<Order>, t: State<B>)
    requires CancelAll(g, s, at, orders) == Success(t)
    ensures t.intents == s.intents && t.book.marks == s.book.marks && t.curve == s.curve
    decreases |orders|
  {
    hide Handle;
    hide EngineLaws.RowsOf;
    hide EngineLaws.BookFills;
    CancelsKeepMarks(g, s, at, orders);
    if orders != [] {
      var u := CancelAll(g, s, at, orders[..|orders| - 1]).value;
      CancelsAsk(g, s, at, orders[..|orders| - 1], u);
      EngineLaws.HandleLaw(u, g.venue.cancel(u.broker, orders[|orders| - 1].id, at), at, 4);
    }
  }

  /** What a signal adds: at most one intent, that answers it. */
  lemma SignalAsks<B>(g: Engine<B>, s: State<B>, at: Time, signal: Signal, met: seq<Event>, e: Event, t: State<B>)
    requires OnSignal(g, s, at, signal) == Success(t) && e.payload == Signalled(signal) && e.at == at
    requires forall k :: MarkOf(s.book.marks, k) == LatestMark(met, k)
    ensures t.curve == s.curve
    ensures t.intents == s.intents
            || exists intent: Intent :: t.intents == s.intents + [intent] && Asked(intent, g.config, met + [e])
  {
    hide OnSignal;
    hide CancelAll;
    hide LatestMark;
    hide OrderPrices;
    hide Sizing.SizeSignal;
    hide ValidIntent;
    hide EngineLaws.Decided;
    hide EngineLaws.RowsOf;
    hide EngineLaws.BookFills;
    hide EngineLaws.LastWord;
    EngineLaws.SignalLaw(g, s, at, signal);
    var key := Some(signal.series.digest);
    var r := Record(s, SignalMet, at, 4, key);
    var u := CancelAll(g, r, at, g.venue.active(s.broker, key)).value;
    CancelsAsk(g, r, at, g.venue.active(s.broker, key), u);
    assert (met + [e])[..|met|] == met && (met + [e])[|met|] == e;
    if t != Record(u, NoActionTaken, at, 4, key) {
      var intent: Intent :| EngineLaws.Answers(intent, g.config, signal, at, u.book) && ValidIntent(intent)
                            && exists decision: Decision :: EngineLaws.Decided(g, u, at, intent, decision)
                                                            && EngineLaws.Placed(g, u, at, intent, decision, Success(t));
      var decision: Decision :| EngineLaws.Decided(g, u, at, intent, decision) && EngineLaws.Placed(g, u, at, intent, decision, Success(t));
      assert MarkOf(s.book.marks, signal.series.digest) == LatestMark(met, signal.series.digest);
      assert AskedBy(intent, g.config, met + [e], |met|);
      assert t.intents == s.intents + [intent];
    }
  }

  lemma StepAsks<B>(g: Engine<B>, s: State<B>, met: seq<Event>, e: Event, t: State<B>)
    requires Step(g, s, e) == Success(t) && AllAsked(s.intents, g.config, met)
    requires forall k :: MarkOf(s.book.marks, k) == LatestMark(met, k)
    ensures AllAsked(t.intents, g.config, met + [e]) && t.curve == s.curve
  {
    hide LatestMark;
    hide OnCompleted;
    hide OnMark;
    hide OnFunding;
    hide OnSignal;
    hide OnOpen;
    hide EngineLaws.RowsOf;
    hide EngineLaws.BookFills;
    hide EngineLaws.LastWord;
    hide EngineLaws.Asks;
    hide EngineLaws.PaymentsOn;
    hide Asked;
    AskedByMore(s.intents, g.config, met, e);
    match e.payload
    case Completed(b) => var check := EngineLaws.CompletedLaw(g, s, e.at, b);
    case ClosingMark(b) => EngineLaws.MarkLaw(s, e.at, b.series, b.close, BarClose);
    case Funded(rate) => var keys := EngineLaws.OnFundingLaw(g, s, e.at, rate);
    case Opening(b) =>
      EngineLaws.MarkLaw(s, e.at, b.series, b.open, BarOpen);
      var check := EngineLaws.OpenLaw(g, s, e.at, b.series, b.open);
    case Signalled(signal) =>
      SignalAsks(g, s, e.at, signal, met, e, t);
  }

  // ---------------------------------------------------------------- the equity curve

  ghost predicate Happens(events: seq<Event>, t: Time) {
    exists e :: e in events && e.at == t
  }

  ghost predicate OnCurve(curve: seq<Metrics.Point>, t: Time) {
    exists p :: p in curve && p.at == t
  }

  predicate RisesInTime(curve: seq<Metrics.Point>) {
    forall i, j :: 0 <= i < j < |curve| ==> curve[i].at < curve[j].at
  }

  /** A point for each instant of the events but the last, in the order of time. */
  ghost predicate DrawnSoFar(curve: seq<Metrics.Point>, events: seq<Event>) {
    && RisesInTime(curve)
    && forall t: Time :: OnCurve(curve, t) <==> Happens(events, t) && t < events[|events| - 1].at
  }

  predicate InTime(events: seq<Event>) {
    forall i, j :: 0 <= i < j < |events| ==> events[i].at <= events[j].at
  }

  lemma OneMoreInstant(events: seq<Event>, e: Event)
    ensures forall t: Time :: Happens(events + [e], t) <==> Happens(events, t) || e.at == t
  {
    forall t: Time
      ensures Happens(events + [e], t) <==> Happens(events, t) || e.at == t
    {
      assert e in events + [e];
      if Happens(events, t) {
        var x :| x in events && x.at == t;
        assert x in events + [e];
      }
    }
  }

  lemma OneMorePoint(curve: seq<Metrics.Point>, p: Metrics.Point)
    ensures forall t: Time :: OnCurve(curve + [p], t) <==> OnCurve(curve, t) || p.at == t
  {
    forall t: Time
      ensures OnCurve(curve + [p], t) <==> OnCurve(curve, t) || p.at == t
    {
      assert p in curve + [p];
      if OnCurve(curve, t) {
        var x :| x in curve && x.at == t;
        assert x in curve + [p];
      }
    }
  }

  lemma NoneLater(events: seq<Event>, t: Time)
    requires InTime(events) && Happens(events, t)
    ensures t <= events[|events| - 1].at
  {
    var e :| e in events && e.at == t;
    var i :| 0 <= i < |events| && events[i] == e;
  }

  /** Closing the last instant of the events completes the curve. */
  lemma CloseDraws<B>(s: State<B>, events: seq<Event>)
    requires events != [] && InTime(events) && DrawnSoFar(s.curve, events)
    requires CloseGroup(s, events[|events| - 1].at).Success?
    ensures var curve := CloseGroup(s, events[|events| - 1].at).value.curve;
            RisesInTime(curve) && forall t: Time :: OnCurve(curve, t) <==> Happens(events, t)
  {
    var last := events[|events| - 1];
    var t := CloseGroup(s, last.at).value;
    assert last in events;
    ClosedAt(s, last.at);
    hide CloseGroup;
    var p := t.curve[|s.curve|];
    assert t.curve == s.curve + [p];
    OneMorePoint(s.curve, p);
    forall i | 0 <= i < |s.curve|
      ensures s.curve[i].at < last.at
    {
      assert s.curve[i] in s.curve;
      assert OnCurve(s.curve, s.curve[i].at);
    }
    forall t: Time
      ensures Happens(events, t) ==> t <= last.at
      ensures Happens(events, last.at)
    {
      if Happens(events, t) {
        NoneLater(events, t);
      }
    }
    hide OnCurve;
    hide Happens;
  }

  lemma ClosedAt<B>(s: State<B>, at: Time)
    requires CloseGroup(s, at).Success?
    ensures var curve := CloseGroup(s, at).value.curve; |curve| == |s.curve| + 1 && s.curve <= curve && curve[|s.curve|].at == at
  {
    hide Equity;
    hide Metrics.PeakEquity;
    hide StaleKeys;
  }

  /** After a further event at `e.at` the instants before it have been drawn up. */
  lemma TurnDraws<B>(s: State<B>, front: seq<Event>, e: Event)
    requires InTime(front + [e]) && (front == [] ==> s.curve == []) && (front != [] ==> DrawnSoFar(s.curve, front))
    requires Turn(s, front, e.at).Success?
    ensures DrawnSoFar(Turn(s, front, e.at).value.curve, front + [e])
  {
    var events := front + [e];
    OneMoreInstant(front, e);
    if front == [] {
      forall t: Time
        ensures !Happens(front, t)
      {
      }
    } else {
      var last := front[|front| - 1];
      assert events[|front| - 1] == last && events[|front|] == e;
      assert InTime(front) by {
        forall i, j | 0 <= i < j < |front|
          ensures front[i].at <= front[j].at
        {
          assert events[i] == front[i] && events[j] == front[j];
        }
      }
      forall t: Time
        ensures Happens(front, t) ==> t <= last.at
      {
        if Happens(front, t) {
          NoneLater(front, t);
        }
      }
      if last.at < e.at {
        CloseDraws(s, front);
      }
    }
    hide CloseGroup;
    hide OnCurve;
    hide Happens;
    hide InTime;
  }

  // ---------------------------------------------------------------- every state of a run

  lemma {:induction false} PlayRecords<B>(g: Engine<B>, startedAt: Time, events: seq<Event>)
    requires (forall i :: 0 <= i < |events| ==> WellMade(events[i])) && InTime(events) && Play(g, startedAt, events).Success?
    ensures var s := Play(g, startedAt, events).value;
            && AllPaidFor(s.payments, events) && AllAsked(s.intents, g.config, events)
            && (events == [] ==> s.curve == []) && (events != [] ==> DrawnSoFar(s.curve, events))
    decreases |events|
  {
    hide Step;
    hide Turn;
    hide WellMade;
    hide DrawnSoFar;
    if events != [] {
      var n := |events| - 1;
      var front, e := events[..n], events[n];
      assert events == front + [e];
      PlayRecords(g, startedAt, front);
      PlayMarks(g, startedAt, front);
      var s, t := Play(g, startedAt, front).value, Play(g, startedAt, events).value;
      var turned := Turn(s, front, e.at).value;
      TurnKeepsRecords(s, front, e.at);
      TurnDraws(s, front, e);
      StepPays(g, turned, front, e, t);
      StepAsks(g, turned, front, e, t);
    }
  }

  lemma TurnKeepsRecords<B>(s: State<B>, met: seq<Event>, at: Time)
    requires Turn(s, met, at).Success?
    ensures var t := Turn(s, met, at).value; t.payments == s.payments && t.intents == s.intents && t.book.marks == s.book.marks
  {
    TurnKeepsMarks(s, met, at);
    hide Metrics.PointAfter;
    hide Equity;
    hide SnapshotOfAccount;
  }

  lemma OrderedInTime(r: Request, h: Hashes)
    ensures InTime(Ordering(r, h)) && forall i :: 0 <= i < |Ordering(r, h)| ==> WellMade(Ordering(r, h)[i])
  {
    OrderingIsOrdered(r, h);
    var events := Ordering(r, h);
    hide Ordering;
    forall i, j | 0 <= i < j < |events|
      ensures events[i].at <= events[j].at
    {
      assert Events.Before(events[i], events[j]);
    }
    forall i | 0 <= i < |events|
      ensures WellMade(events[i])
    {
      EventOf(r, h, events[i]);
    }
  }

  /** When a run ends each of its funding payments comes from a rate of the request and each of its intents from a signal,
      both at the last price their bars had told by then, and its equity curve has one point for each instant at which an
      event happened, in the order of time. */
  lemma RunKeepsRecords<B>(g: Engine<B>, r: Request, h: Hashes)
    requires Ordering(r, h) != [] && Run(g, Ordering(r, h)).Success?
    ensures var events, s := Ordering(r, h), Run(g, Ordering(r, h)).value.0;
            && AllPaidFor(s.payments, events) && AllAsked(s.intents, g.config, events)
            && RisesInTime(s.curve) && forall t: Time :: OnCurve(s.curve, t) <==> Happens(events, t)
  {
    var events := Ordering(r, h);
    OrderedInTime(r, h);
    hide Ordering;
    var played, closed := EngineLaws.RunIs(g, events);
    hide Run;
    EndKeepsRecords(g, events, played, closed, Run(g, events).value.0);
  }

  lemma EndKeepsRecords<B>(g: Engine<B>, events: seq<Event>, played: State<B>, closed: State<B>, end: State<B>)
    requires (forall i :: 0 <= i < |events| ==> WellMade(events[i])) && InTime(events) && events != []
    requires var at := events[|events| - 1].at;
             Play(g, events[0].at, events) == Success(played) && CloseGroup(played, at) == Success(closed) && Finish(g, closed, at) == Success(end)
    ensures AllPaidFor(end.payments, events) && AllAsked(end.intents, g.config, events)
    ensures RisesInTime(end.curve) && forall t: Time :: OnCurve(end.curve, t) <==> Happens(events, t)
  {
    var at := events[|events| - 1].at;
    PlayRecords(g, events[0].at, events);
    hide Play;
    CloseDraws(played, events);
    CloseKeepsRecords(played, at);
    EngineLaws.FinishLaw(g, closed, at);
    hide CloseGroup;
    hide Finish;
    hide AllPaidFor;
    hide AllAsked;
    hide RisesInTime;
    hide OnCurve;
    hide Happens;
    hide EngineLaws.RowsOf;
    hide EngineLaws.BookFills;
    hide EngineLaws.LastWord;
  }

  lemma CloseKeepsRecords<B>(s: State<B>, at: Time)
    requires CloseGroup(s, at).Success?
    ensures var t := CloseGroup(s, at).value; t.payments == s.payments && t.intents == s.intents
  {
    hide Metrics.PointAfter;
    hide Equity;
    hide SnapshotOfAccount;
  }

  // ---------------------------------------------------------------- the summary

  lemma UnrealizedTotals(b: KeyedBook)
    requires Good(b)
    ensures Total(LatestUnrealized(b.snapshots)) == Total(EngineLaws.ProfitsAtMarks(b))
  {
    EngineLaws.SameParts(b);
    var latest, parts := LatestUnrealized(b.snapshots), UnrealizedParts(b.positions, b.marks);
    hide EngineLaws.ProfitsAtMarks;
    hide Latest;
    hide Positions.UnrealizedPnl;
    assert latest.Keys == parts.Keys;
    forall k | k in latest
      ensures latest[k] == parts[k]
    {
      assert Shows(Latest(b.snapshots)[k], b.positions[k], MarkOf(b.marks, k));
    }
    assert latest == parts;
  }

  /** The profits a run reports are read off its final positions: realized as each has realized, unrealized as each would
      make at its mark; gross is before fees, and the round trips are those of its records. */
  lemma RunSummary<B(!new)>(g: Engine<B>, r: Request, h: Hashes)
    requires Soundness.Conforming(g.venue) && ValidRequest(r, h) && Ordering(r, h) != [] && Run(g, Ordering(r, h)).Success?
    ensures var (s, m) := Run(g, Ordering(r, h)).value;
            && m.realized == Total(map k | k in s.book.positions :: s.book.positions[k].realized)
            && m.unrealized == Total(EngineLaws.ProfitsAtMarks(s.book))
            && m.gross == m.realized + m.unrealized + m.funding
            && RoundTrips.FoldBook(s.book, s.fills).Success? && m.trips == RoundTrips.FoldBook(s.book, s.fills).value.results
  {
    var events := Ordering(r, h);
    Runs.EndOfRun(g, r, h);
    hide Ordering;
    hide ValidRequest;
    hide Soundness.Conforming;
    var played, closed := EngineLaws.RunIs(g, events);
    hide Run;
    hide PlayThrough;
    hide Finish;
    hide Soundness.SoundState;
    var t := Run(g, events).value.0;
    GoodAt(t, events[|events| - 1].at);
    hide Good;
    UnrealizedTotals(t.book);
    SummaryOf(t.book, t.curve, t.fills);
    hide Metrics.Summarize;
  }

  lemma GoodAt<B>(s: State<B>, at: Time)
    requires Soundness.SoundState(s, at)
    ensures Good(s.book)
  {
  }

  lemma SummaryOf(b: KeyedBook, curve: seq<Metrics.Point>, fills: seq<GoodFill>)
    requires Metrics.Summarize(b, curve, fills).Success?
    ensures var m := Metrics.Summarize(b, curve, fills).value;
            && m.realized == Total(map k | k in b.positions :: b.positions[k].realized)
            && m.unrealized == Total(LatestUnrealized(b.snapshots)) && m.gross == m.realized + m.unrealized + m.funding
            && RoundTrips.FoldBook(b, fills).Success? && m.trips == RoundTrips.FoldBook(b, fills).value.results
  {
    assert RealizedParts(b.positions) == map k | k in b.positions :: b.positions[k].realized;
    hide Total;
    hide LatestUnrealized;
    hide RoundTrips.FoldBook;
    hide Metrics.MaxDrawdown;
    hide AmountsOf;
  }
}
