/** Whole-run results: for every valid request and every conforming broker. */
module Runs {
  import opened Results
  import opened Models
  import opened MapSums
  import opened Accounting
  import opened RoundTrips
  import opened Events
  import opened Metrics
  import opened Backtest
  import opened Soundness
  import Sorting

  // ---------------------------------------------------------------- marks come first

  lemma Precedes(events: seq<Event>, n: nat, e: Event)
    requires Sorting.Ordered(events, Events.Before) && n < |events| && e in events && !Events.Before(events[n], e)
    ensures e in events[..n]
  {
    var i :| 0 <= i < |events| && events[i] == e;
    assert i < n;
    assert events[..n][i] == e;
  }

  /** A bar opens, and so is marked, before it completes. */
  lemma OpensFirst(r: Request, h: Hashes, n: nat)
    requires ValidRequest(r, h) && n < |Ordering(r, h)| && Ordering(r, h)[n].payload.Completed?
    ensures Start(h)(Ordering(r, h)[n].payload.bar) in Ordering(r, h)[..n]
  {
    var events := Ordering(r, h);
    var e := events[n];
    var b := e.payload.bar;
    OrderingIsOrdered(r, h);
    EventOf(r, h, e);
    EventOf(r, h, Start(h)(b));
    hide Ordering;
    assert ValidBar(b);
    Precedes(events, n, Start(h)(b));
  }

  /** A signal comes after the close mark of a bar of its series. */
  lemma ClosesFirst(r: Request, h: Hashes, n: nat) returns (b: Bar)
    requires ValidRequest(r, h) && n < |Ordering(r, h)| && Ordering(r, h)[n].payload.Signalled?
    ensures b.series.digest == Ordering(r, h)[n].payload.signal.series.digest
    ensures Closing(h)(b) in Ordering(r, h)[..n]
  {
    var events := Ordering(r, h);
    var e := events[n];
    var signal := e.payload.signal;
    OrderingIsOrdered(r, h);
    EventOf(r, h, e);
    assert Informed(signal, r.bars);
    var i :| 0 <= i < |r.bars| && r.bars[i].series.digest == signal.series.digest && r.bars[i].closeAt <= signal.at;
    b := r.bars[i];
    EventOf(r, h, Closing(h)(b));
    hide Ordering;
    Precedes(events, n, Closing(h)(b));
  }

  predicate AllMarked(met: seq<Event>, ms: Marks) {
    forall i :: 0 <= i < |met| ==> LeavesMarked(met[i], ms)
  }

  lemma ReadyAt<B>(r: Request, h: Hashes, n: nat, s: State<B>)
    requires ValidRequest(r, h) && n < |Ordering(r, h)| && AllMarked(Ordering(r, h)[..n], s.book.marks)
    ensures Ready(s, Ordering(r, h)[n])
  {
    hide ValidRequest;
    hide Ordering;
    var met, e := Ordering(r, h)[..n], Ordering(r, h)[n];
    if e.payload.Completed? {
      OpensFirst(r, h, n);
      var i :| 0 <= i < |met| && met[i] == Start(h)(e.payload.bar);
      assert LeavesMarked(met[i], s.book.marks);
    } else if e.payload.Signalled? {
      var b := ClosesFirst(r, h, n);
      var i :| 0 <= i < |met| && met[i] == Closing(h)(b);
      assert LeavesMarked(met[i], s.book.marks);
    }
  }

  // ---------------------------------------------------------------- every state of the run

  lemma InitialSound<B>(g: Engine<B>, startedAt: Time)
    ensures SoundState(Initial(g, startedAt), startedAt)
  {
    OpenBookIsGood(g.config.initialCash, g.config.currency, startedAt);
    OpenBookHistory(g.config.initialCash, g.config.currency, startedAt);
    hide Good;
    hide HistoryLaw;
  }

  /** After `n` events of a run that has not failed, the invariant holds and every series met is marked; a run
      that has failed blames its inputs. */
  ghost predicate PlayedWell<B>(g: Engine<B>, r: Request, h: Hashes, n: nat)
    requires n <= |Ordering(r, h)| && Ordering(r, h) != []
  {
    var events := Ordering(r, h);
    match Play(g, events[0].at, events[..n])
    case Success(s) => SoundState(s, if n == 0 then events[0].at else events[n - 1].at) && AllMarked(events[..n], s.book.marks)
    case Failure(e) => !Internal(e)
  }

  lemma {:induction false} PlaySound<B(!new)>(g: Engine<B>, r: Request, h: Hashes, n: nat)
    requires Conforming(g.venue) && ValidRequest(r, h) && Ordering(r, h) != [] && n <= |Ordering(r, h)|
    ensures PlayedWell(g, r, h, n)
    decreases n
  {
    hide Ordering;
    hide ValidRequest;
    hide Conforming;
    hide SoundState;
    hide AllMarked;
    hide Step;
    hide Turn;
    hide Initial;
    var events := Ordering(r, h);
    if n == 0 {
      InitialSound(g, events[0].at);
      NothingMarked(Initial(g, events[0].at).book.marks);
      assert events[..0] == [];
    } else {
      var front, e := events[..n - 1], events[n - 1];
      PlaySound(g, r, h, n - 1);
      assert events[..n][..n - 1] == front;
      var played := Play(g, events[0].at, front);
      if played.Success? {
        TurnSound(played.value, r, h, n - 1);
        var turned := Turn(played.value, front, e.at);
        if turned.Success? {
          StepOn(g, r, h, n - 1, turned.value);
        }
      }
    }
  }

  lemma NothingMarked(ms: Marks)
    ensures AllMarked([], ms)
  {
  }

  lemma StepOn<B(!new)>(g: Engine<B>, r: Request, h: Hashes, n: nat, s: State<B>)
    requires Conforming(g.venue) && ValidRequest(r, h) && n < |Ordering(r, h)|
    requires SoundState(s, Ordering(r, h)[n].at) && AllMarked(Ordering(r, h)[..n], s.book.marks)
    ensures var t := Step(g, s, Ordering(r, h)[n]);
            && (t.Failure? ==> !Internal(t.error))
            && (t.Success? ==> SoundState(t.value, Ordering(r, h)[n].at) && AllMarked(Ordering(r, h)[..n + 1], t.value.book.marks))
  {
    hide Ordering;
    hide ValidRequest;
    hide Conforming;
    hide SoundState;
    hide Step;
    var events := Ordering(r, h);
    ReadyAt(r, h, n, s);
    StepSound(g, s, events[n]);
    MarkedAfter(events[..n], events[n], s, Step(g, s, events[n]));
    assert events[..n + 1] == events[..n] + [events[n]];
  }

  lemma TurnSound<B>(s: State<B>, r: Request, h: Hashes, n: nat)
    requires n < |Ordering(r, h)| && AllMarked(Ordering(r, h)[..n], s.book.marks)
    requires SoundState(s, if n == 0 then Ordering(r, h)[0].at else Ordering(r, h)[n - 1].at)
    ensures var e := Ordering(r, h)[n]; var t := Turn(s, Ordering(r, h)[..n], e.at);
            && (t.Failure? ==> !Internal(t.error))
            && (t.Success? ==> SoundState(t.value, e.at) && AllMarked(Ordering(r, h)[..n], t.value.book.marks))
  {
    var events := Ordering(r, h);
    OrderingIsOrdered(r, h);
    hide Ordering;
    hide Sound;
    hide CloseGroup;
    hide AllMarked;
    if n > 0 {
      assert Events.Before(events[n - 1], events[n]);
      CloseGroupSound(s, events[n - 1].at);
      var t := Turn(s, events[..n], events[n].at);
      if t.Success? {
        SoundLater(t.value.book, t.value.fills, t.value.curve, |t.value.audit|, |t.value.audit|, events[n - 1].at, events[n].at);
      }
    }
  }

  lemma MarkedAfter<B>(met: seq<Event>, e: Event, s: State<B>, r: Result<State<B>, Error>)
    requires AllMarked(met, s.book.marks) && Fine(s, r, e.at)
    requires r.Success? ==> LeavesMarked(e, r.value.book.marks)
    ensures r.Success? ==> AllMarked(met + [e], r.value.book.marks)
  {
    hide SoundState;
  }

  // ---------------------------------------------------------------- the end of the run

  ghost predicate EndsAtEquity<B>(s: State<B>) {
    s.curve != [] && s.curve[|s.curve| - 1].equity == Equity(s.book)
  }

  lemma FinishSound<B(!new)>(g: Engine<B>, s: State<B>, at: Time)
    requires Conforming(g.venue) && SoundState(s, at) && EndsAtEquity(s)
    ensures Fine(s, Finish(g, s, at), at)
    ensures Finish(g, s, at).Success? ==> EndsAtEquity(Finish(g, s, at).value)
  {
    hide SoundState;
    hide Handle;
    hide Equity;
    HandleNothingSound(s, g.venue.expire(s.broker, at), at, 7);
    HandleKeepsCurve(s, g.venue.expire(s.broker, at), at, 7);
  }

  lemma {:induction false} TakeFillsCurve<B>(s: State<B>, fills: seq<GoodFill>, at: Time, priority: nat)
    ensures TakeFills(s, fills, at, priority).Success? ==> TakeFills(s, fills, at, priority).value.curve == s.curve
    decreases |fills|
  {
    if fills != [] {
      TakeFillsCurve(s, fills[..|fills| - 1], at, priority);
    }
  }

  lemma HandleKeepsCurve<B>(s: State<B>, reply: Reply<B>, at: Time, priority: nat)
    ensures Handle(s, reply, at, priority).Success? ==> Handle(s, reply, at, priority).value.curve == s.curve
  {
    if reply.Success? {
      var (broker, result) := reply.value;
      var s1 := RecordDecisions(s.(broker := broker), result.decisions, at, priority);
      DecisionsFrame(s.(broker := broker), result.decisions, at, priority);
      OrdersFrame(s1, result.updates, at, priority);
      TakeFillsCurve(RecordOrders(s1, result.updates, at, priority), result.fills, at, priority);
    }
  }

  /** Where a run ends: before its metrics, in a sound state whose last curve point is its equity. */
  lemma EndOfRun<B(!new)>(g: Engine<B>, r: Request, h: Hashes)
    requires Conforming(g.venue) && ValidRequest(r, h) && Ordering(r, h) != []
    ensures var events := Ordering(r, h); var at := events[|events| - 1].at;
            match PlayThrough(g, events[0].at, events)
            case Failure(e) => !Internal(e)
            case Success(s) => (match Finish(g, s, at)
                                case Failure(e) => !Internal(e)
                                case Success(t) => SoundState(t, at) && EndsAtEquity(t))
  {
    var events := Ordering(r, h);
    var n := |events|;
    var at := events[n - 1].at;
    PlaySound(g, r, h, n);
    assert events[..n] == events;
    hide Ordering;
    hide ValidRequest;
    hide Conforming;
    hide Play;
    hide SoundState;
    hide AllMarked;
    hide Finish;
    hide Equity;
    hide CloseGroup;
    var played := Play(g, events[0].at, events);
    if played.Success? {
      CloseGroupSound(played.value, at);
      var closed := CloseGroup(played.value, at);
      if closed.Success? {
        FinishSound(g, closed.value, at);
      }
    }
  }

  lemma SoundEnds(b: KeyedBook, fills: seq<GoodFill>, curve: seq<Point>, count: nat, at: Time)
    requires Sound(b, fills, curve, count, at) && curve != [] && curve[|curve| - 1].equity == Equity(b)
    ensures var r := Summarize(b, curve, fills); var trips := FoldBook(b, fills);
            && r.Success? && trips.Success?
            && r.value.net == Equity(b) - b.initialCash == r.value.realized + r.value.unrealized + r.value.funding - r.value.fees
            && r.value.fees == b.totalFees && r.value.funding == b.totalFunding
            && SumSeq(r.value.trips) + Total(trips.value.accumulated) + LostFunding(b.snapshots, b.ledger)
               == r.value.realized - r.value.fees + r.value.funding
            && LargestFall(b.accounts, r.value.maxDrawdown)
  {
    hide LargestFall;
    hide FoldBook;
    hide LostFunding;
    EndFacts(b, fills, curve, count, at);
    MismatchOnlyIfUnmarked(b, curve, fills);
    ConservedIffNothingLost(b, fills);
    MaximumDrawdownIsLargestFall(curve, b.accounts);
    TotalsOfLedger(b);
  }

  lemma TotalsOfLedger(b: Book)
    requires Good(b)
    ensures b.totalFees == -AmountsOf(b.ledger, Fee) && b.totalFunding == AmountsOf(b.ledger, Funding)
  {
  }

  lemma EndFacts(b: KeyedBook, fills: seq<GoodFill>, curve: seq<Point>, count: nat, at: Time)
    requires Sound(b, fills, curve, count, at)
    ensures Good(b) && HistoryLaw(b) && Sequenced(FillItems(b.snapshots)) && Curve(curve, b.accounts)
    ensures !UnmarkedSpot(b.positions, b.marks)
    ensures forall j :: 0 <= j < |b.accounts| ==> b.accounts[j].gross >= 0.0
    ensures forall id :: id in b.applied ==> exists f :: f in fills && f.id == id
  {
    hide Good;
    hide HistoryLaw;
    hide Sequenced;
    hide Curve;
    forall id | id in b.applied
      ensures exists f :: f in fills && f.id == id
    {
      var i :| 0 <= i < |fills| && fills[i].id == id;
      assert fills[i] in fills;
    }
  }

  /** For every valid request, configuration, risk guard and conforming broker: a run never fails on a stale or
      missing mark, on the profit reconciliation, or on a missing fill; and when it completes,
      - net profit is final equity less initial cash, and equals realized + unrealized + funding - fees;
      - completed round trips, what open positions have accumulated and the lost funding make up everything realized,
        charged and funded;
      - the reported maximum drawdown is the largest fall of equity between any two account snapshots. */
  lemma RunReconciles<B(!new)>(g: Engine<B>, r: Request, h: Hashes)
    requires Conforming(g.venue) && ValidRequest(r, h)
    ensures Ordering(r, h) != []
    ensures match Run(g, Ordering(r, h))
            case Failure(e) => !Internal(e)
            case Success((s, m)) =>
              && m.net == Equity(s.book) - s.book.initialCash == m.realized + m.unrealized + m.funding - m.fees
              && m.fees == s.book.totalFees && m.funding == s.book.totalFunding
              && FoldBook(s.book, s.fills).Success?
              && SumSeq(m.trips) + Total(FoldBook(s.book, s.fills).value.accumulated)
                 + LostFunding(s.book.snapshots, s.book.ledger) == m.realized - m.fees + m.funding
              && LargestFall(s.book.accounts, m.maxDrawdown)
  {
    hide LargestFall;
    hide FoldBook;
    hide LostFunding;
    hide Summarize;
    hide Finish;
    hide PlayThrough;
    hide Sound;
    hide Equity;
    hide Total;
    EventOf(r, h, Completion(h)(r.bars[0]));
    hide Ordering;
    EndOfRun(g, r, h);
    var events := Ordering(r, h);
    var played := PlayThrough(g, events[0].at, events);
    if played.Success? {
      var at := events[|events| - 1].at;
      var ended := Finish(g, played.value, at);
      if ended.Success? {
        var t := ended.value;
        SoundEnds(t.book, t.fills, t.curve, |t.audit|, at);
      }
    }
  }
}
