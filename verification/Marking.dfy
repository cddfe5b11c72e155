/** The prices a run goes by: after any of its events each series is marked at the last price its bars have told, and
    equity is cash and holdings at those prices (backtesting/engine.py, execution/accounting.py). */
module Marking {
  import opened Results
  import opened Models
  import opened MapSums
  import opened Accounting
  import opened Events
  import opened Backtest
  import opened Soundness
  import Metrics
  import Runs
  import Sorting

  /** A bar tells its series' price when it opens, and again when it closes. */
  predicate Tells(e: Event, key: Digest) {
    (e.payload.Opening? || e.payload.ClosingMark?) && e.payload.bar.series.digest == key
  }

  function Told(e: Event): Mark
    requires e.payload.Opening? || e.payload.ClosingMark?
  {
    var b := e.payload.bar;
    if e.payload.Opening? then Mark(b.open, b.openAt, BarOpen) else Mark(b.close, b.closeAt, BarClose)
  }

  /** The last price told. */
  function LatestMark(met: seq<Event>, key: Digest): Option<Mark> {
    if met == [] then None
    else
      var last := met[|met| - 1];
      if Tells(last, key) then Some(Told(last)) else LatestMark(met[..|met| - 1], key)
  }

  lemma {:induction false} LatestIsLast(met: seq<Event>, key: Digest)
    ensures LatestMark(met, key).None? <==> forall i :: 0 <= i < |met| ==> !Tells(met[i], key)
    ensures LatestMark(met, key).Some? ==>
              exists i :: 0 <= i < |met| && Tells(met[i], key) && LatestMark(met, key).value == Told(met[i])
                          && forall j :: i < j < |met| ==> !Tells(met[j], key)
    decreases |met|
  {
    if met != [] {
      var n := |met| - 1;
      LatestIsLast(met[..n], key);
      if Tells(met[n], key) {
        assert LatestMark(met, key).value == Told(met[n]);
      } else if LatestMark(met, key).Some? {
        var i :| 0 <= i < n && Tells(met[..n][i], key) && LatestMark(met[..n], key).value == Told(met[..n][i])
                 && forall j :: i < j < n ==> !Tells(met[..n][j], key);
        assert Tells(met[i], key);
        forall j | i < j < |met|
          ensures !Tells(met[j], key)
        {
          assert j < n ==> met[..n][j] == met[j];
        }
      } else {
        forall i | 0 <= i < |met|
          ensures !Tells(met[i], key)
        {
          assert i < n ==> met[..n][i] == met[i];
        }
      }
    }
  }

  // ---------------------------------------------------------------- what leaves marks alone

  lemma {:induction false} FillsKeepMarks<B>(s: State<B>, fills: seq<GoodFill>, at: Time, priority: nat)
    ensures TakeFills(s, fills, at, priority).Success? ==> TakeFills(s, fills, at, priority).value.book.marks == s.book.marks
    decreases |fills|
  {
    hide AfterFill;
    if fills != [] {
      var front, last := fills[..|fills| - 1], fills[|fills| - 1];
      FillsKeepMarks(s, front, at, priority);
      if TakeFills(s, fills, at, priority).Success? {
        var t := TakeFills(s, front, at, priority).value;
        FillFrame(t.book, last, |t.audit| + 1);
      }
    }
  }

  lemma HandleKeepsMarks<B>(s: State<B>, reply: Reply<B>, at: Time, priority: nat)
    ensures Handle(s, reply, at, priority).Success? ==> Handle(s, reply, at, priority).value.book.marks == s.book.marks
  {
    if reply.Success? {
      var (broker, result) := reply.value;
      var s1 := RecordDecisions(s.(broker := broker), result.decisions, at, priority);
      DecisionsFrame(s.(broker := broker), result.decisions, at, priority);
      OrdersFrame(s1, result.updates, at, priority);
      FillsKeepMarks(RecordOrders(s1, result.updates, at, priority), result.fills, at, priority);
    }
  }

  lemma {:induction false} CancelsKeepMarks<B>(g: Engine<B>, s: State<B>, at: Time, orders: seq<Order>)
    ensures CancelAll(g, s, at, orders).Success? ==> CancelAll(g, s, at, orders).value.book.marks == s.book.marks
    decreases |orders|
  {
    hide Handle;
    if orders != [] {
      var front := orders[..|orders| - 1];
      CancelsKeepMarks(g, s, at, front);
      if CancelAll(g, s, at, orders).Success? {
        var t := CancelAll(g, s, at, front).value;
        HandleKeepsMarks(t, g.venue.cancel(t.broker, orders[|orders| - 1].id, at), at, 4);
      }
    }
  }

  lemma SubmitKeepsMarks<B>(g: Engine<B>, s: State<B>, at: Time, intent: Intent, decision: Decision)
    ensures Submit(g, s, at, intent, decision).Success? ==> Submit(g, s, at, intent, decision).value.book.marks == s.book.marks
  {
    hide Handle;
    if decision.accepted {
      var marked := intent.(status := Submitted);
      var t := s.(intents := s.intents + [marked], decisions := s.decisions + [decision]);
      var u := Record(Record(t, IntentMade, at, 4, Some(intent.series.digest)), RiskDecided, at, 4, Some(decision.series));
      HandleKeepsMarks(u, g.venue.submit(u.broker, marked, decision), at, 4);
    }
  }

  lemma SignalKeepsMarks<B>(g: Engine<B>, s: State<B>, at: Time, signal: Signal)
    ensures OnSignal(g, s, at, signal).Success? ==> OnSignal(g, s, at, signal).value.book.marks == s.book.marks
  {
    hide CancelAll;
    hide Submit;
    hide SizeFor;
    hide IntentFor;
    hide ValidIntent;
    hide View;
    hide OpenOrders;
    if OnSignal(g, s, at, signal).Success? {
      var t := Record(s, SignalMet, at, 4, Some(signal.series.digest));
      CancelsKeepMarks(g, t, at, g.venue.active(t.broker, Some(signal.series.digest)));
      var u := CancelAll(g, t, at, g.venue.active(t.broker, Some(signal.series.digest))).value;
      var sized := SizeFor(g, u.book, at, signal).value;
      if !sized.1.IsNoAction() {
        var intent := IntentFor(g.config, signal, at, sized.0, sized.1, sized.1.side.value);
        SubmitKeepsMarks(g, u, at, intent,
                         g.guard(intent, intent.reference, PreSubmit, at, View(u.book, OpenOrders(g.venue.active(u.broker, None))), 0.0));
      }
    }
  }

  lemma {:induction false} FundingKeepsMarks<B>(g: Engine<B>, s: State<B>, at: Time, rate: FundingRate, keys: seq<Digest>)
    ensures FundAll(g, s, at, rate, keys).Success? ==> FundAll(g, s, at, rate, keys).value.book.marks == s.book.marks
    decreases |keys|
  {
    hide PaymentFor;
    if keys != [] {
      FundingKeepsMarks(g, s, at, rate, keys[..|keys| - 1]);
    }
  }

  // ---------------------------------------------------------------- one event

  /** The marks after an event: the price it tells, if any, for its own series; the others as they were. */
  ghost predicate MarksAfter(before: Marks, e: Event, after: Marks) {
    forall k :: MarkOf(after, k) == if Tells(e, k) then Some(Told(e)) else MarkOf(before, k)
  }

  lemma MarkIsSet<B>(s: State<B>, at: Time, series: Series, price: real, source: MarkSource)
    ensures OnMark(s, at, series, price, source).Success? ==>
              OnMark(s, at, series, price, source).value.book.marks == s.book.marks[series.digest := Mark(price, at, source)]
  {
    hide Snapshot;
  }

  lemma StepMarks<B>(g: Engine<B>, s: State<B>, e: Event)
    requires WellMade(e) && Step(g, s, e).Success?
    ensures MarksAfter(s.book.marks, e, Step(g, s, e).value.book.marks)
  {
    hide Handle;
    hide OnMark;
    hide OnSignal;
    hide FundAll;
    hide View;
    hide CheckWith;
    match e.payload
    case Completed(b) =>
      var t := Record(s, BarCompleted, e.at, 1, Some(b.series.digest));
      HandleKeepsMarks(t, g.venue.processCompletedBar(t.broker, b.series, e.at, Prices(b.open, b.high, b.low, b.close),
                                                      CheckWith(g.guard, e.at, View(t.book, map[]))), e.at, 1);
    case ClosingMark(b) => MarkIsSet(s, e.at, b.series, b.close, BarClose);
    case Funded(rate) =>
      var t := Record(s, FundingMet, e.at, 3, Some(rate.series.digest));
      FundingKeepsMarks(g, t, e.at, rate, Ascending(t.book.positions.Keys));
    case Signalled(signal) => SignalKeepsMarks(g, s, e.at, signal);
    case Opening(b) =>
      MarkIsSet(s, e.at, b.series, b.open, BarOpen);
      var t := OnMark(s, e.at, b.series, b.open, BarOpen).value;
      HandleKeepsMarks(t, g.venue.processBarOpen(t.broker, b.series, e.at, b.open, CheckWith(g.guard, e.at, View(t.book, map[]))), e.at, 5);
  }

  lemma TurnKeepsMarks<B>(s: State<B>, met: seq<Event>, at: Time)
    ensures Turn(s, met, at).Success? ==> Turn(s, met, at).value.book.marks == s.book.marks
  {
    hide Metrics.PointAfter;
    hide Equity;
  }

  // ---------------------------------------------------------------- every state of a run

  lemma {:induction false} PlayMarks<B>(g: Engine<B>, startedAt: Time, events: seq<Event>)
    requires forall i :: 0 <= i < |events| ==> WellMade(events[i])
    requires Play(g, startedAt, events).Success?
    ensures forall k :: MarkOf(Play(g, startedAt, events).value.book.marks, k) == LatestMark(events, k)
    decreases |events|
  {
    hide Step;
    hide Turn;
    hide WellMade;
    if events != [] {
      var n := |events| - 1;
      PlayMarks(g, startedAt, events[..n]);
      var s := Play(g, startedAt, events[..n]).value;
      TurnKeepsMarks(s, events[..n], events[n].at);
      StepMarks(g, Turn(s, events[..n], events[n].at).value, events[n]);
    }
  }

  /** `m` is what the bars of `k` said last, going by the events in `met`: the close of a bar that has completed, or the
      open of one that has opened, with no later close or open, and an open counting as later than a close. */
  ghost predicate SaidLast(m: Mark, bars: seq<Bar>, h: Hashes, met: seq<Event>, k: Digest) {
    && (exists b :: b in bars && b.series.digest == k
                    && ((Closing(h)(b) in met && m == Mark(b.close, b.closeAt, BarClose)) || (Start(h)(b) in met && m == Mark(b.open, b.openAt, BarOpen))))
    && (forall b :: b in bars && b.series.digest == k && Closing(h)(b) in met ==> b.closeAt <= m.at)
    && (forall b :: b in bars && b.series.digest == k && Start(h)(b) in met ==>
          b.openAt <= m.at && (b.openAt == m.at ==> m == Mark(b.open, b.openAt, BarOpen)))
  }

  lemma ToldOfSeries(r: Request, h: Hashes, n: nat, i: nat, k: Digest)
    requires ValidRequest(r, h) && i < n <= |Ordering(r, h)| && Tells(Ordering(r, h)[i], k)
    requires forall j :: i < j < n ==> !Tells(Ordering(r, h)[j], k)
    ensures SaidLast(Told(Ordering(r, h)[i]), r.bars, h, Ordering(r, h)[..n], k)
  {
    var events := Ordering(r, h);
    OrderingIsOrdered(r, h);
    assert Sorting.Distinct(Sorting.Map(r.bars, BarKey));
    hide Ordering;
    hide ValidRequest;
    var e, met := events[i], events[..n];
    var b, m := e.payload.bar, Told(e);
    EventOf(r, h, e);
    assert met[i] == e && e in met;
    assert e == if e.payload.Opening? then Start(h)(b) else Closing(h)(b);
    forall c | c in r.bars && c.series.digest == k && Closing(h)(c) in met
      ensures c.closeAt <= m.at
    {
      NotLater(events, n, i, k, Closing(h)(c));
    }
    forall c | c in r.bars && c.series.digest == k && Start(h)(c) in met
      ensures c.openAt <= m.at && (c.openAt == m.at ==> m == Mark(c.open, c.openAt, BarOpen))
    {
      NotLater(events, n, i, k, Start(h)(c));
      if c.openAt == m.at {
        assert e.payload.Opening?;
        SameBar(r.bars, b, c);
      }
    }
  }

  lemma NotLater(events: seq<Event>, n: nat, i: nat, k: Digest, x: Event)
    requires i < n <= |events| && Sorting.Ordered(events, Events.Before) && x in events[..n] && Tells(x, k)
    requires forall j :: i < j < n ==> !Tells(events[j], k)
    ensures Events.Before(x, events[i])
  {
    var j :| 0 <= j < |events[..n]| && events[..n][j] == x;
    assert events[j] == x;
  }

  /** After any number of its events a run has marked exactly the series whose bars have told a price, each at the last
      price told. */
  lemma MarksFollowBars<B>(g: Engine<B>, r: Request, h: Hashes, n: nat)
    requires ValidRequest(r, h) && Ordering(r, h) != [] && n <= |Ordering(r, h)|
    requires Play(g, Ordering(r, h)[0].at, Ordering(r, h)[..n]).Success?
    ensures var met, marks := Ordering(r, h)[..n], Play(g, Ordering(r, h)[0].at, Ordering(r, h)[..n]).value.book.marks;
            && (forall k :: k in marks <==> exists e :: e in met && Tells(e, k))
            && (forall k :: k in marks ==> SaidLast(marks[k], r.bars, h, met, k))
  {
    var events := Ordering(r, h);
    var met := events[..n];
    forall i | 0 <= i < |met|
      ensures WellMade(met[i])
    {
      EventOf(r, h, events[i]);
    }
    PlayMarks(g, events[0].at, met);
    var marks := Play(g, events[0].at, met).value.book.marks;
    hide Play;
    MarksSaid(r, h, n, marks);
    hide SaidLast;
  }

  lemma MarksSaid(r: Request, h: Hashes, n: nat, marks: Marks)
    requires ValidRequest(r, h) && n <= |Ordering(r, h)| && forall k :: MarkOf(marks, k) == LatestMark(Ordering(r, h)[..n], k)
    ensures forall k :: k in marks <==> exists e :: e in Ordering(r, h)[..n] && Tells(e, k)
    ensures forall k :: k in marks ==> SaidLast(marks[k], r.bars, h, Ordering(r, h)[..n], k)
  {
    hide Ordering;
    hide ValidRequest;
    hide SaidLast;
    var events := Ordering(r, h);
    var met := events[..n];
    assert forall j :: 0 <= j < n ==> met[j] == events[j];
    forall k
      ensures k in marks <==> exists e :: e in met && Tells(e, k)
      ensures k in marks ==> SaidLast(marks[k], r.bars, h, met, k)
    {
      LatestIsLast(met, k);
      assert MarkOf(marks, k) == LatestMark(met, k);
      if k in marks {
        var i :| 0 <= i < |met| && Tells(met[i], k) && LatestMark(met, k).value == Told(met[i]) && forall j :: i < j < |met| ==> !Tells(met[j], k);
        ToldOfSeries(r, h, n, i, k);
        assert met[i] in met;
      }
      hide LatestMark;
    }
  }

  // ---------------------------------------------------------------- equity

  /** What a holding is worth at a price: its market value, or its open profit. */
  function ValueAt(p: PositionState, price: real): real {
    if p.mode == Spot then p.quantity * price
    else if p.average.Some? then p.quantity * (price - p.average.value)
    else 0.0
  }

  ghost function ValuesAt(ps: Held, prices: map<Digest, real>): map<nat, real> {
    map k | k in ps :: if k in prices then ValueAt(ps[k], prices[k]) else 0.0
  }

  /** The last prices the bars have told. */
  ghost function PricesTold(met: seq<Event>, keys: set<Digest>): map<Digest, real> {
    map k | k in keys && LatestMark(met, k).Some? :: LatestMark(met, k).value.price
  }

  lemma EquityOf(b: Book, met: seq<Event>)
    requires Keyed(b.positions) && forall k :: MarkOf(b.marks, k) == LatestMark(met, k)
    ensures Equity(b) == b.cash + Total(ValuesAt(b.positions, PricesTold(met, b.positions.Keys)))
  {
    hide LatestMark;
    forall k | k in b.positions
      ensures EquityParts(b.positions, b.marks)[k] == ValuesAt(b.positions, PricesTold(met, b.positions.Keys))[k]
    {
      assert MarkOf(b.marks, k) == LatestMark(met, k);
      assert ValidPosition(b.positions[k]);
    }
    assert EquityParts(b.positions, b.marks) == ValuesAt(b.positions, PricesTold(met, b.positions.Keys));
  }

  /** After any number of its events a run's equity is its cash and its holdings at the last prices their bars have told;
      with a conforming broker every holding has such a price. */
  lemma EquityFollowsBars<B(!new)>(g: Engine<B>, r: Request, h: Hashes, n: nat)
    requires Conforming(g.venue) && ValidRequest(r, h) && Ordering(r, h) != [] && n <= |Ordering(r, h)|
    requires Play(g, Ordering(r, h)[0].at, Ordering(r, h)[..n]).Success?
    ensures var met, book := Ordering(r, h)[..n], Play(g, Ordering(r, h)[0].at, Ordering(r, h)[..n]).value.book;
            && PricesTold(met, book.positions.Keys).Keys == book.positions.Keys
            && Equity(book) == book.cash + Total(ValuesAt(book.positions, PricesTold(met, book.positions.Keys)))
  {
    var events := Ordering(r, h);
    var met := events[..n];
    forall i | 0 <= i < |met|
      ensures WellMade(met[i])
    {
      EventOf(r, h, events[i]);
    }
    PlayMarks(g, events[0].at, met);
    Runs.PlaySound(g, r, h, n);
    var s := Play(g, events[0].at, met).value;
    SoundHeld(s.book, s, if n == 0 then events[0].at else events[n - 1].at);
    hide Play;
    hide Ordering;
    hide SoundState;
    EquityOf(s.book, met);
    AllTold(s.book, met);
    hide Equity;
    hide PricesTold;
    hide LatestMark;
  }

  lemma AllTold(b: Book, met: seq<Event>)
    requires HeldAreMarked(b.positions, b.marks) && forall k :: MarkOf(b.marks, k) == LatestMark(met, k)
    ensures PricesTold(met, b.positions.Keys).Keys == b.positions.Keys
  {
    forall k | k in b.positions
      ensures LatestMark(met, k).Some?
    {
      assert MarkOf(b.marks, k) == LatestMark(met, k);
    }
    hide LatestMark;
  }

  lemma SoundHeld<B>(b: Book, s: State<B>, at: Time)
    requires s.book == b && SoundState(s, at)
    ensures HeldAreMarked(b.positions, b.marks) && Keyed(b.positions)
  {
  }
}
