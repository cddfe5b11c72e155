/** What every step of a run keeps, for any broker that fills only the series and the instant it was given. */
module Soundness {
  import opened Results
  import opened Models
  import opened MapSums
  import opened Accounting
  import opened RoundTrips
  import opened Events
  import opened Metrics
  import opened Backtest
  import Positions
  import Sorting

  predicate FilledAt(fills: seq<GoodFill>, key: Digest, at: Time) {
    forall i :: 0 <= i < |fills| ==> fills[i].series.digest == key && fills[i].filledAt == at
  }

  predicate Fills<B>(reply: Reply<B>, key: Digest, at: Time) {
    reply.Success? ==> FilledAt(reply.value.1.fills, key, at)
  }

  predicate FillsNothing<B>(reply: Reply<B>) {
    reply.Success? ==> reply.value.1.fills == []
  }

  /** All that is asked of the broker: it fills orders of the bar's own series at the bar's own instant, and
      nothing when it submits, cancels or expires. */
  ghost predicate Conforming<B(!new)>(v: Venue<B>) {
    && (forall b: B, s: Series, t: Time, p: Prices, check: RiskCheck :: Fills(v.processCompletedBar(b, s, t, p, check), s.digest, t))
    && (forall b: B, s: Series, t: Time, open: real, check: RiskCheck :: Fills(v.processBarOpen(b, s, t, open, check), s.digest, t))
    && (forall b: B, intent: Intent, decision: Decision :: FillsNothing(v.submit(b, intent, decision)))
    && (forall b: B, id: Uuid, t: Time :: FillsNothing(v.cancel(b, id, t)))
    && (forall b: B, t: Time :: FillsNothing(v.expire(b, t)))
  }

  // ---------------------------------------------------------------- the invariant

  predicate MarksBy(ms: Marks, at: Time) {
    forall k :: k in ms ==> ms[k].at <= at
  }

  predicate HeldAreMarked(ps: Held, ms: Marks) {
    forall k :: k in ps ==> k in ms
  }

  predicate FillsBy(items: seq<Item>, at: Time, count: nat) {
    forall i :: 0 <= i < |items| ==> ItemTime(items[i]) <= at && ItemSequence(items[i]) <= count
  }

  predicate Accounted(applied: set<Uuid>, fills: seq<GoodFill>) {
    forall id: Uuid :: id in applied ==> exists i :: 0 <= i < |fills| && fills[i].id == id
  }

  predicate Drawn(curve: seq<Point>, accounts: seq<AccountSnapshot>) {
    Curve(curve, accounts) && forall i :: 0 <= i < |accounts| ==> accounts[i].gross >= 0.0
  }

  ghost predicate Recorded(b: Book, at: Time, count: nat) {
    && HistoryLaw(b) && Sequenced(FillItems(b.snapshots)) && FillsBy(FillItems(b.snapshots), at, count)
  }

  /** `count` is the number of audit rows so far. */
  ghost predicate Sound(b: Book, fills: seq<GoodFill>, curve: seq<Point>, count: nat, at: Time) {
    && Good(b) && Recorded(b, at, count)
    && MarksBy(b.marks, at) && HeldAreMarked(b.positions, b.marks)
    && Accounted(b.applied, fills) && Drawn(curve, b.accounts)
  }

  ghost predicate SoundState<B>(s: State<B>, at: Time) {
    Sound(s.book, s.fills, s.curve, |s.audit|, at)
  }

  /** The exceptions that guard against the engine itself, rather than its inputs. */
  predicate Internal(e: Error) {
    e in {NegativeMarkAge, UnmarkedSignal, PnlMismatch, MissingFill, NoEquityCurve}
  }

  /** A step that succeeds is sound and keeps every mark's series; one that fails blames its inputs. */
  ghost predicate Fine<B>(s: State<B>, r: Result<State<B>, Error>, at: Time) {
    match r
    case Success(t) => SoundState(t, at) && s.book.marks.Keys <= t.book.marks.Keys
    case Failure(e) => !Internal(e)
  }

  lemma SoundLater(b: Book, fills: seq<GoodFill>, curve: seq<Point>, count: nat, more: nat, at: Time, later: Time)
    requires Sound(b, fills, curve, count, at) && count <= more && at <= later
    ensures Sound(b, fills, curve, more, later)
  {
    hide Good;
    hide HistoryLaw;
    hide Sequenced;
    hide FillItems;
    hide Drawn;
  }

  lemma FineChain<B>(s: State<B>, t: State<B>, r: Result<State<B>, Error>, at: Time)
    requires s.book.marks.Keys <= t.book.marks.Keys && Fine(t, r, at)
    ensures Fine(s, r, at)
  {
  }

  // ---------------------------------------------------------------- books

  lemma FillErrors(p: PositionState, fill: Fill)
    requires ValidPosition(p) && ValidFill(fill)
    ensures Positions.ApplyFillToPosition(p, fill).Failure? ==> !Internal(Positions.ApplyFillToPosition(p, fill).error)
  {
    hide Positions.Move;
    hide Positions.Shape;
    if p.mode == fill.mode {
      Positions.MoveShape(p.mode, Positions.HoldingOf(p), Signed(fill), fill.price);
    }
  }

  lemma FillRaises(b: KeyedBook, fill: GoodFill, sequence: nat)
    requires MarksBy(b.marks, fill.filledAt)
    ensures AfterFill(b, fill, sequence).Failure? ==> !Internal(AfterFill(b, fill, sequence).error)
  {
    hide Positions.ApplyFillToPosition;
    hide PostTrade;
    hide PostFee;
    PositionForLaw(b, fill.series, fill.mode, fill.filledAt);
    FillErrors(PositionFor(b, fill.series, fill.mode, fill.filledAt), fill);
    PostedMarks(b, fill);
  }

  lemma PostedMarks(b: Book, fill: Fill)
    ensures forall t :: PostFee(PostTrade(b, fill, t), fill).marks == b.marks
  {
  }

  /** What a fill leaves alone, and what it adds to. */
  lemma FillFrame(b: KeyedBook, fill: GoodFill, sequence: nat)
    requires AfterFill(b, fill, sequence).Success?
    ensures var c := AfterFill(b, fill, sequence).value;
            && c == ApplyFill(b, fill, sequence).book && ApplyFill(b, fill, sequence).raised.None?
            && c.marks == b.marks && c.accounts == b.accounts && c.applied == b.applied + {fill.id}
            && c.positions.Keys == b.positions.Keys + {fill.series.digest}
            && c.initialCash == b.initialCash && c.totalFunding == b.totalFunding
  {
    hide Positions.ApplyFillToPosition;
    hide Positions.Shape;
    PositionForLaw(b, fill.series, fill.mode, fill.filledAt);
    Positions.ApplyFillLaw(PositionFor(b, fill.series, fill.mode, fill.filledAt), fill);
  }

  lemma FillRecorded(b: KeyedBook, fill: GoodFill, count: nat)
    requires Good(b) && Recorded(b, fill.filledAt, count) && AfterFill(b, fill, count + 1).Success?
    ensures Recorded(AfterFill(b, fill, count + 1).value, fill.filledAt, count + 1)
  {
    hide Good;
    hide HistoryLaw;
    hide ApplyFill;
    hide FillItems;
    assert ApplyFill(b, fill, count + 1).raised.None? by {
      FillFrame(b, fill, count + 1);
    }
    ApplyFillHistory(b, fill, count + 1);
    var c := ApplyFill(b, fill, count + 1).book;
    var items, x := FillItems(b.snapshots), FillItem(c.snapshots[|c.snapshots| - 1]);
    assert FillItems(c.snapshots) == items + [x];
  }

  lemma FillSound(b: KeyedBook, fills: seq<GoodFill>, curve: seq<Point>, count: nat, fill: GoodFill)
    requires Sound(b, fills, curve, count, fill.filledAt) && fill.series.digest in b.marks
    ensures var r := AfterFill(b, fill, count + 1);
            && (r.Failure? ==> !Internal(r.error))
            && (r.Success? ==> r.value.marks == b.marks && Sound(r.value, fills + [fill], curve, count + 1, fill.filledAt))
  {
    hide Good;
    hide Recorded;
    hide Drawn;
    FillRaises(b, fill, count + 1);
    if AfterFill(b, fill, count + 1).Success? {
      FillFrame(b, fill, count + 1);
      FillRecorded(b, fill, count);
      ApplyFillKeepsGood(b, fill, count + 1);
      hide AfterFill;
      hide ApplyFill;
      AccountedGrows(b.applied, fills, fill);
    }
  }

  lemma AccountedGrows(applied: set<Uuid>, fills: seq<GoodFill>, fill: GoodFill)
    requires Accounted(applied, fills)
    ensures Accounted(applied + {fill.id}, fills + [fill])
  {
    var all := fills + [fill];
    forall id: Uuid | id in applied + {fill.id}
      ensures exists i :: 0 <= i < |all| && all[i].id == id
    {
      if id == fill.id {
        assert all[|fills|].id == id;
      } else {
        var i :| 0 <= i < |fills| && fills[i].id == id;
        assert all[i].id == id;
      }
    }
  }

  lemma MarkSound(b: KeyedBook, fills: seq<GoodFill>, curve: seq<Point>, count: nat, series: Series, price: real, at: Time, source: MarkSource)
    requires Sound(b, fills, curve, count, at)
    ensures var r := AfterMark(b, series, price, at, source, count + 1);
            && (r.Failure? ==> !Internal(r.error))
            && (r.Success? ==> r.value.marks.Keys == b.marks.Keys + {series.digest}
                               && r.value.positions == b.positions
                               && Sound(r.value, fills, curve, count + 1, at))
  {
    hide Good;
    hide HistoryLaw;
    hide Sequenced;
    hide FillItems;
    hide Drawn;
    if AfterMark(b, series, price, at, source, count + 1).Success? {
      SetMarkKeepsGood(b, series, price, at, source, count + 1);
      SetMarkHistory(b, series, price, at, source, count + 1);
    }
  }

  lemma FundingSound(b: KeyedBook, fills: seq<GoodFill>, curve: seq<Point>, count: nat, payment: FundingPayment, at: Time)
    requires Sound(b, fills, curve, count, at)
    ensures Sound(ApplyFunding(b, payment), fills, curve, count, at)
  {
    hide Good;
    hide HistoryLaw;
    hide Sequenced;
    hide FillItems;
    hide Drawn;
    ApplyFundingKeepsGood(b, payment);
    ApplyFundingHistory(b, payment);
  }

  lemma GrossIsNonNegative(ps: Held, ms: Marks)
    ensures Total(GrossExposures(ps, ms)) >= 0.0
  {
    TotalNonNegative(GrossExposures(ps, ms));
  }

  lemma CurveGrows(curve: seq<Point>, accounts: seq<AccountSnapshot>, a: AccountSnapshot, p: Point)
    requires Drawn(curve, accounts) && a.gross >= 0.0 && PointAfter(accounts + [a]) == Success(p)
    ensures Drawn(curve + [p], accounts + [a])
  {
    hide PointAfter;
    var all := accounts + [a];
    forall j | 0 <= j < |all|
      ensures PointAfter(all[..j + 1]) == Success((curve + [p])[j])
    {
      if j < |accounts| {
        assert all[..j + 1] == accounts[..j + 1];
      } else {
        assert all[..j + 1] == all;
      }
    }
  }

  lemma AccountSound(b: KeyedBook, fills: seq<GoodFill>, curve: seq<Point>, count: nat, at: Time)
    requires Sound(b, fills, curve, count, at)
    ensures var c := SnapshotAccount(b, at); var p := PointAfter(c.accounts);
            && (p.Failure? ==> !Internal(p.error))
            && (p.Success? ==> p.value.equity == Equity(c) && Sound(c, fills, curve + [p.value], count, at))
  {
    hide Good;
    hide HistoryLaw;
    hide Sequenced;
    hide FillItems;
    hide Drawn;
    hide Total;
    hide PeakEquity;
    SnapshotAccountKeepsGood(b, at);
    GrossIsNonNegative(b.positions, b.marks);
    var c := SnapshotAccount(b, at);
    var a := c.accounts[|b.accounts|];
    assert c.accounts == b.accounts + [a];
    if PointAfter(c.accounts).Success? {
      CurveGrows(curve, b.accounts, a, PointAfter(c.accounts).value);
    }
    SameHistory(b, c);
  }

  lemma SameHistory(b: Book, c: Book)
    requires HistoryLaw(b) && c.snapshots == b.snapshots && c.positions == b.positions && c.ledger == b.ledger && c.applied == b.applied
    ensures HistoryLaw(c)
  {
  }

  // ---------------------------------------------------------------- states

  lemma RecordSound<B>(s: State<B>, kind: EventKind, at: Time, priority: nat, series: Option<Digest>)
    requires SoundState(s, at)
    ensures SoundState(Record(s, kind, at, priority, series), at)
  {
    SoundLater(s.book, s.fills, s.curve, |s.audit|, |s.audit| + 1, at, at);
    hide Sound;
  }

  lemma {:induction false} DecisionsFrame<B>(s: State<B>, ds: seq<Decision>, at: Time, priority: nat)
    ensures var t := RecordDecisions(s, ds, at, priority);
            t.book == s.book && t.fills == s.fills && t.curve == s.curve && |s.audit| <= |t.audit|
    decreases |ds|
  {
    if ds != [] {
      DecisionsFrame(s, ds[..|ds| - 1], at, priority);
    }
  }

  lemma {:induction false} OrdersFrame<B>(s: State<B>, os: seq<Order>, at: Time, priority: nat)
    ensures var t := RecordOrders(s, os, at, priority);
            t.book == s.book && t.fills == s.fills && t.curve == s.curve && |s.audit| <= |t.audit|
    decreases |os|
  {
    if os != [] {
      OrdersFrame(s, os[..|os| - 1], at, priority);
    }
  }

  lemma TakeFillSound<B>(s: State<B>, fill: GoodFill, at: Time, priority: nat)
    requires SoundState(s, at) && fill.filledAt == at && fill.series.digest in s.book.marks
    ensures Fine(s, TakeFill(s, fill, at, priority), at)
  {
    hide Sound;
    hide AfterFill;
    var count := |s.audit|;
    FillSound(s.book, s.fills, s.curve, count, fill);
    var r := AfterFill(s.book, fill, count + 1);
    if r.Success? {
      SoundLater(r.value, s.fills + [fill], s.curve, count + 1, count + 2, at, at);
    }
  }

  lemma {:induction false} TakeFillsSound<B>(s: State<B>, fills: seq<GoodFill>, key: Digest, at: Time, priority: nat)
    requires SoundState(s, at) && FilledAt(fills, key, at) && key in s.book.marks
    ensures Fine(s, TakeFills(s, fills, at, priority), at)
    decreases |fills|
  {
    hide SoundState;
    hide TakeFill;
    if fills != [] {
      var front := fills[..|fills| - 1];
      TakeFillsSound(s, front, key, at, priority);
      var r := TakeFills(s, front, at, priority);
      if r.Success? {
        TakeFillSound(r.value, fills[|fills| - 1], at, priority);
        FineChain(s, r.value, TakeFills(s, fills, at, priority), at);
      }
    }
  }

  lemma HandleSound<B>(s: State<B>, reply: Reply<B>, key: Digest, at: Time, priority: nat)
    requires SoundState(s, at) && Fills(reply, key, at) && key in s.book.marks
    ensures Fine(s, Handle(s, reply, at, priority), at)
  {
    hide Sound;
    if reply.Success? {
      var (broker, result) := reply.value;
      var s0 := s.(broker := broker);
      var s1 := RecordDecisions(s0, result.decisions, at, priority);
      var s2 := RecordOrders(s1, result.updates, at, priority);
      DecisionsFrame(s0, result.decisions, at, priority);
      OrdersFrame(s1, result.updates, at, priority);
      SoundLater(s.book, s.fills, s.curve, |s.audit|, |s2.audit|, at, at);
      TakeFillsSound(s2, result.fills, key, at, priority);
      hide SoundState;
      FineChain(s, s2, Handle(s, reply, at, priority), at);
    }
  }

  lemma HandleNothingSound<B>(s: State<B>, reply: Reply<B>, at: Time, priority: nat)
    requires SoundState(s, at) && FillsNothing(reply)
    ensures Fine(s, Handle(s, reply, at, priority), at)
    ensures Handle(s, reply, at, priority).Success? ==> Handle(s, reply, at, priority).value.book == s.book
  {
    hide Sound;
    if reply.Success? {
      var (broker, result) := reply.value;
      var s0 := s.(broker := broker);
      var s1 := RecordDecisions(s0, result.decisions, at, priority);
      var s2 := RecordOrders(s1, result.updates, at, priority);
      DecisionsFrame(s0, result.decisions, at, priority);
      OrdersFrame(s1, result.updates, at, priority);
      SoundLater(s.book, s.fills, s.curve, |s.audit|, |s2.audit|, at, at);
    }
  }

  lemma OnMarkSound<B>(s: State<B>, at: Time, series: Series, price: real, source: MarkSource)
    requires SoundState(s, at)
    ensures Fine(s, OnMark(s, at, series, price, source), at)
    ensures OnMark(s, at, series, price, source).Success? ==> series.digest in OnMark(s, at, series, price, source).value.book.marks
  {
    hide Sound;
    hide AfterMark;
    var count := |s.audit|;
    SoundLater(s.book, s.fills, s.curve, count, count + 1, at, at);
    MarkSound(s.book, s.fills, s.curve, count, series, price, at, source);
    var r := AfterMark(s.book, series, price, at, source, count + 1);
    if r.Success? {
      SoundLater(r.value, s.fills, s.curve, count + 1, count + 2, at, at);
    }
  }

  lemma FundOneSound<B>(g: Engine<B>, s: State<B>, at: Time, rate: FundingRate, key: Digest)
    requires SoundState(s, at)
    ensures Fine(s, FundOne(g, s, at, rate, key), at)
  {
    hide Sound;
    var r := FundOne(g, s, at, rate, key);
    if r.Success? && r.value != s {
      var payment := PaymentFor(rate, s.book.positions[key], s.book.marks[key].price, g.config.recordZero).value.value;
      FundingSound(s.book, s.fills, s.curve, |s.audit|, payment, at);
      SoundLater(ApplyFunding(s.book, payment), s.fills, s.curve, |s.audit|, |s.audit| + 1, at, at);
    }
  }

  lemma {:induction false} FundAllSound<B>(g: Engine<B>, s: State<B>, at: Time, rate: FundingRate, keys: seq<Digest>)
    requires SoundState(s, at)
    ensures Fine(s, FundAll(g, s, at, rate, keys), at)
    decreases |keys|
  {
    hide SoundState;
    hide FundOne;
    if keys != [] {
      var front := keys[..|keys| - 1];
      FundAllSound(g, s, at, rate, front);
      var r := FundAll(g, s, at, rate, front);
      if r.Success? {
        FundOneSound(g, r.value, at, rate, keys[|keys| - 1]);
        FineChain(s, r.value, FundAll(g, s, at, rate, keys), at);
      }
    }
  }

  lemma {:induction false} CancelAllSound<B(!new)>(g: Engine<B>, s: State<B>, at: Time, orders: seq<Order>)
    requires Conforming(g.venue) && SoundState(s, at)
    ensures Fine(s, CancelAll(g, s, at, orders), at)
    decreases |orders|
  {
    hide SoundState;
    hide Handle;
    if orders != [] {
      var front := orders[..|orders| - 1];
      CancelAllSound(g, s, at, front);
      var r := CancelAll(g, s, at, front);
      if r.Success? {
        HandleNothingSound(r.value, g.venue.cancel(r.value.broker, orders[|orders| - 1].id, at), at, 4);
        FineChain(s, r.value, CancelAll(g, s, at, orders), at);
      }
    }
  }

  lemma SubmitSound<B(!new)>(g: Engine<B>, s: State<B>, at: Time, intent: Intent, decision: Decision)
    requires Conforming(g.venue) && SoundState(s, at)
    ensures Fine(s, Submit(g, s, at, intent, decision), at)
  {
    hide Sound;
    hide Handle;
    var marked := intent.(status := if decision.accepted then Submitted else Blocked);
    var t := s.(intents := s.intents + [marked], decisions := s.decisions + [decision]);
    var u := Record(Record(t, IntentMade, at, 4, Some(intent.series.digest)), RiskDecided, at, 4, Some(decision.series));
    SoundLater(s.book, s.fills, s.curve, |s.audit|, |u.audit|, at, at);
    if decision.accepted {
      HandleNothingSound(u, g.venue.submit(u.broker, marked, decision), at, 4);
      hide SoundState;
      FineChain(s, u, Submit(g, s, at, intent, decision), at);
    }
  }

  /** A signal that finds a mark is sized, or fails for its instrument kind or its reference price. */
  lemma SizeForRaises(g: Engine, book: KeyedBook, at: Time, signal: Signal)
    requires signal.series.digest in book.marks
    ensures SizeFor(g, book, at, signal).Failure? ==> !Internal(SizeFor(g, book, at, signal).error)
  {
  }

  lemma OnSignalSound<B(!new)>(g: Engine<B>, s: State<B>, at: Time, signal: Signal)
    requires Conforming(g.venue) && SoundState(s, at) && signal.series.digest in s.book.marks
    ensures Fine(s, OnSignal(g, s, at, signal), at)
  {
    hide SoundState;
    hide Conforming;
    hide CancelAll;
    hide Submit;
    hide SizeFor;
    hide IntentFor;
    hide ValidIntent;
    hide View;
    hide OpenOrders;
    var key := Some(signal.series.digest);
    var t := Record(s, SignalMet, at, 4, key);
    RecordSound(s, SignalMet, at, 4, key);
    CancelAllSound(g, t, at, g.venue.active(t.broker, key));
    var cancels := CancelAll(g, t, at, g.venue.active(t.broker, key));
    if cancels.Success? {
      var u := cancels.value;
      SizeForRaises(g, u.book, at, signal);
      var sizes := SizeFor(g, u.book, at, signal);
      if sizes.Success? {
        var sized := sizes.value;
        if sized.1.IsNoAction() {
          RecordSound(u, NoActionTaken, at, 4, key);
        } else {
          var intent := IntentFor(g.config, signal, at, sized.0, sized.1, sized.1.side.value);
          var decision := g.guard(intent, intent.reference, PreSubmit, at, View(u.book, OpenOrders(g.venue.active(u.broker, None))), 0.0);
          SubmitSound(g, u, at, intent, decision);
        }
      }
    }
  }

  lemma OnCompletedSound<B(!new)>(g: Engine<B>, s: State<B>, at: Time, b: Bar)
    requires Conforming(g.venue) && SoundState(s, at) && b.series.digest in s.book.marks
    ensures Fine(s, OnCompleted(g, s, at, b), at)
  {
    hide SoundState;
    hide Handle;
    hide View;
    hide CheckWith;
    var t := Record(s, BarCompleted, at, 1, Some(b.series.digest));
    RecordSound(s, BarCompleted, at, 1, Some(b.series.digest));
    var check := CheckWith(g.guard, at, View(t.book, map[]));
    HandleSound(t, g.venue.processCompletedBar(t.broker, b.series, at, Prices(b.open, b.high, b.low, b.close), check), b.series.digest, at, 1);
  }

  lemma OnOpenSound<B(!new)>(g: Engine<B>, s: State<B>, at: Time, series: Series, price: real)
    requires Conforming(g.venue) && SoundState(s, at)
    ensures Fine(s, OnOpen(g, s, at, series, price), at)
    ensures OnOpen(g, s, at, series, price).Success? ==> series.digest in OnOpen(g, s, at, series, price).value.book.marks
  {
    hide SoundState;
    hide Handle;
    hide View;
    hide CheckWith;
    hide OnMark;
    OnMarkSound(s, at, series, price, BarOpen);
    var r := OnMark(s, at, series, price, BarOpen);
    if r.Success? {
      var t := r.value;
      var check := CheckWith(g.guard, at, View(t.book, map[]));
      HandleSound(t, g.venue.processBarOpen(t.broker, series, at, price, check), series.digest, at, 5);
      FineChain(s, t, OnOpen(g, s, at, series, price), at);
    }
  }

  /** The series an event needs a mark for before it is met. */
  predicate Ready<B>(s: State<B>, e: Event) {
    match e.payload
    case Completed(b) => b.series.digest in s.book.marks
    case Signalled(signal) => signal.series.digest in s.book.marks
    case _ => true
  }

  /** The series an event leaves marked. */
  predicate LeavesMarked(e: Event, ms: Marks) {
    match e.payload
    case ClosingMark(b) => b.series.digest in ms
    case Opening(b) => b.series.digest in ms
    case _ => true
  }

  lemma StepSound<B(!new)>(g: Engine<B>, s: State<B>, e: Event)
    requires Conforming(g.venue) && SoundState(s, e.at) && Ready(s, e)
    ensures Fine(s, Step(g, s, e), e.at)
    ensures Step(g, s, e).Success? ==> LeavesMarked(e, Step(g, s, e).value.book.marks)
  {
    hide SoundState;
    hide Conforming;
    hide OnCompleted;
    hide OnMark;
    hide OnSignal;
    hide OnOpen;
    hide FundAll;
    match e.payload
    case Completed(b) => OnCompletedSound(g, s, e.at, b);
    case ClosingMark(b) => OnMarkSound(s, e.at, b.series, b.close, BarClose);
    case Funded(rate) =>
      var t := Record(s, FundingMet, e.at, 3, Some(rate.series.digest));
      RecordSound(s, FundingMet, e.at, 3, Some(rate.series.digest));
      FundAllSound(g, t, e.at, rate, Ascending(t.book.positions.Keys));
    case Signalled(signal) => OnSignalSound(g, s, e.at, signal);
    case Opening(b) => OnOpenSound(g, s, e.at, b.series, b.open);
  }

  lemma CloseGroupSound<B>(s: State<B>, at: Time)
    requires SoundState(s, at)
    ensures Fine(s, CloseGroup(s, at), at)
    ensures CloseGroup(s, at).Success? ==>
              var t := CloseGroup(s, at).value;
              t.curve != [] && t.curve[|t.curve| - 1].equity == Equity(t.book) && t.book.marks == s.book.marks
  {
    hide Sound;
    hide PointAfter;
    AccountSound(s.book, s.fills, s.curve, |s.audit|, at);
    var c := SnapshotAccount(s.book, at);
    if PointAfter(c.accounts).Success? {
      SoundLater(c, s.fills, s.curve + [PointAfter(c.accounts).value], |s.audit|, |s.audit| + 1, at, at);
    }
  }
}
