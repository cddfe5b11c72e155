/** The order in which a run records things, and what follows from it: a completing bar meets no order of its
    own instant, and funding is lost from the round trips only beside a completed-bar fill. */
module Chronology {
  import opened Results
  import opened Models
  import opened Accounting
  import opened RoundTrips
  import opened Events
  import opened Metrics
  import opened Backtest
  import opened Soundness
  import opened Runs
  import Sorting

  predicate NotAfter(a: Time, p: nat, b: Time, q: nat) {
    a < b || (a == b && p <= q)
  }

  predicate RowsBy(audit: seq<AuditRow>, at: Time, priority: nat) {
    forall i :: 0 <= i < |audit| ==> NotAfter(audit[i].at, audit[i].priority, at, priority)
  }

  /** The audit log is numbered from one, in the order of time and priority. */
  predicate InOrder(audit: seq<AuditRow>) {
    && (forall i :: 0 <= i < |audit| ==> audit[i].sequence == i + 1)
    && (forall i, j :: 0 <= i < j < |audit| ==> NotAfter(audit[i].at, audit[i].priority, audit[j].at, audit[j].priority))
  }

  /** Every intent was made by a signal, at priority 4. */
  predicate IntentsBy(intents: seq<Intent>, at: Time, priority: nat) {
    forall i :: 0 <= i < |intents| ==> NotAfter(intents[i].at, 4, at, priority)
  }

  predicate FillRow(item: Item, row: AuditRow) {
    item.FillItem? && row.kind == FillMade && row.at == item.snap.at && row.series == Some(item.snap.series.digest)
    && row.priority in {1, 5}
  }

  /** The audit row of a fill snapshot's fill has the snapshot's sequence number. */
  predicate FillRows(items: seq<Item>, audit: seq<AuditRow>) {
    forall i :: 0 <= i < |items| ==> 1 <= ItemSequence(items[i]) <= |audit| && FillRow(items[i], audit[ItemSequence(items[i]) - 1])
  }

  predicate FundRowsBy(rows: seq<LedgerRow>, at: Time) {
    forall i :: 0 <= i < |rows| && rows[i].entry == Funding ==> rows[i].at <= at
  }

  predicate Clash(row: AuditRow, payment: FundingPayment) {
    row.kind == FillMade && row.priority == 1 && row.at == payment.at && row.series == Some(payment.series.digest)
  }

  /** No funding payment shares its series and instant with a fill made by a completed bar. */
  predicate Apart(audit: seq<AuditRow>, payments: seq<FundingPayment>) {
    forall i, j :: 0 <= i < |audit| && 0 <= j < |payments| ==> !Clash(audit[i], payments[j])
  }

  ghost predicate Dated<B>(s: State<B>, at: Time, priority: nat) {
    && InOrder(s.audit) && RowsBy(s.audit, at, priority) && IntentsBy(s.intents, at, priority)
    && FillRows(FillItems(s.book.snapshots), s.audit) && FundRowsBy(s.book.ledger, at)
    && (Apart(s.audit, s.payments) ==> Grounded(s.book.snapshots, s.book.ledger))
  }

  ghost predicate Timely<B>(r: Result<State<B>, Error>, at: Time, priority: nat) {
    r.Success? ==> Dated(r.value, at, priority)
  }

  // ---------------------------------------------------------------- single records

  lemma DatedLater<B>(s: State<B>, at: Time, priority: nat, later: Time, next: nat)
    requires Dated(s, at, priority) && NotAfter(at, priority, later, next)
    ensures Dated(s, later, next)
  {
    hide InOrder;
    hide FillRows;
    hide Apart;
    hide Grounded;
    hide FillItems;
  }

  lemma RowAdded(audit: seq<AuditRow>, row: AuditRow, at: Time, priority: nat)
    requires InOrder(audit) && RowsBy(audit, at, priority)
    requires row.sequence == |audit| + 1 && row.at == at && row.priority == priority
    ensures InOrder(audit + [row]) && RowsBy(audit + [row], at, priority)
  {
  }

  lemma FillRowsStay(items: seq<Item>, audit: seq<AuditRow>, row: AuditRow)
    requires FillRows(items, audit)
    ensures FillRows(items, audit + [row])
  {
  }

  lemma ApartBefore(audit: seq<AuditRow>, row: AuditRow, payments: seq<FundingPayment>)
    requires Apart(audit + [row], payments)
    ensures Apart(audit, payments)
  {
    forall i, j | 0 <= i < |audit| && 0 <= j < |payments|
      ensures !Clash(audit[i], payments[j])
    {
      assert (audit + [row])[i] == audit[i];
    }
  }

  lemma RecordDated<B>(s: State<B>, kind: EventKind, at: Time, priority: nat, series: Option<Digest>)
    requires Dated(s, at, priority)
    ensures Dated(Record(s, kind, at, priority, series), at, priority)
  {
    hide InOrder;
    hide RowsBy;
    hide IntentsBy;
    hide FillRows;
    hide FundRowsBy;
    hide Apart;
    hide Grounded;
    hide FillItems;
    var row := AuditRow(|s.audit| + 1, at, priority, kind, series);
    RowAdded(s.audit, row, at, priority);
    FillRowsStay(FillItems(s.book.snapshots), s.audit, row);
    if Apart(s.audit + [row], s.payments) {
      ApartBefore(s.audit, row, s.payments);
    }
  }

  lemma {:induction false} DecisionsDated<B>(s: State<B>, ds: seq<Decision>, at: Time, priority: nat)
    requires Dated(s, at, priority)
    ensures Dated(RecordDecisions(s, ds, at, priority), at, priority)
    decreases |ds|
  {
    hide Record;
    hide Dated;
    if ds != [] {
      var t, d := RecordDecisions(s, ds[..|ds| - 1], at, priority), ds[|ds| - 1];
      DecisionsDated(s, ds[..|ds| - 1], at, priority);
      SameDated(t, t.(decisions := t.decisions + [d]), at, priority);
      RecordDated(t.(decisions := t.decisions + [d]), RiskDecided, at, priority, Some(d.series));
    }
  }

  lemma SameDated<B>(s: State<B>, t: State<B>, at: Time, priority: nat)
    requires Dated(s, at, priority)
    requires t.book.snapshots == s.book.snapshots && t.book.ledger == s.book.ledger
    requires t.audit == s.audit && t.payments == s.payments && t.intents == s.intents
    ensures Dated(t, at, priority)
  {
    hide InOrder;
    hide RowsBy;
    hide IntentsBy;
    hide FillRows;
    hide FundRowsBy;
    hide Apart;
    hide Grounded;
    hide FillItems;
  }

  lemma {:induction false} OrdersDated<B>(s: State<B>, os: seq<Order>, at: Time, priority: nat)
    requires Dated(s, at, priority)
    ensures Dated(RecordOrders(s, os, at, priority), at, priority)
    decreases |os|
  {
    hide Record;
    hide Dated;
    if os != [] {
      var t, o := RecordOrders(s, os[..|os| - 1], at, priority), os[|os| - 1];
      OrdersDated(s, os[..|os| - 1], at, priority);
      SameDated(t, t.(orders := t.orders[o.id := o]), at, priority);
      RecordDated(t.(orders := t.orders[o.id := o]), OrderMoved(o.status), at, priority, Some(o.series.digest));
    }
  }

  // ---------------------------------------------------------------- fills

  lemma FillRowsGrow(items: seq<Item>, audit: seq<AuditRow>, snap: PositionSnapshot)
    requires FillRows(items, audit) && audit != [] && snap.sequence == |audit| && FillRow(FillItem(snap), audit[|audit| - 1])
    ensures FillRows(items + [FillItem(snap)], audit)
  {
  }

  lemma FundRowsStay(b: KeyedBook, fill: GoodFill, sequence: nat)
    requires AfterFill(b, fill, sequence).Success? && FundRowsBy(b.ledger, fill.filledAt)
    ensures FundRowsBy(AfterFill(b, fill, sequence).value.ledger, fill.filledAt)
  {
    var c := AfterFill(b, fill, sequence).value;
    FillFrame(b, fill, sequence);
    hide AfterFill;
    forall i | 0 <= i < |c.ledger| && c.ledger[i].entry == Funding
      ensures c.ledger[i].at <= fill.filledAt
    {
      FundingRowsStay(b, fill, sequence, i);
    }
  }

  lemma TakeFillDated<B>(s: State<B>, fill: GoodFill, at: Time, priority: nat)
    requires SoundState(s, at) && Dated(s, at, priority) && fill.filledAt == at && priority in {1, 5}
    ensures Timely(TakeFill(s, fill, at, priority), at, priority)
  {
    hide Good;
    hide HistoryLaw;
    hide Sequenced;
    hide FillItems;
    hide Drawn;
    hide Grounded;
    hide RowsBy;
    hide IntentsBy;
    hide Apart;
    hide InOrder;
    hide FundRowsBy;
    hide FillRows;
    hide AfterFill;
    hide ApplyFill;
    var count := |s.audit| + 1;
    var t := Record(s.(fills := s.fills + [fill]), FillMade, at, priority, Some(fill.series.digest));
    SameDated(s, s.(fills := s.fills + [fill]), at, priority);
    RecordDated(s.(fills := s.fills + [fill]), FillMade, at, priority, Some(fill.series.digest));
    var r := AfterFill(s.book, fill, count);
    if r.Success? {
      FillFrame(s.book, fill, count);
      ApplyFillHistory(s.book, fill, count);
      FundRowsStay(s.book, fill, count);
      var snap := r.value.snapshots[|r.value.snapshots| - 1];
      FillRowsGrow(FillItems(s.book.snapshots), t.audit, snap);
      if Apart(t.audit, t.payments) {
        FundsBefore(s.book.ledger, at);
        FillKeepsGrounded(s.book, fill, count);
      }
      RecordDated(t.(book := r.value), PositionShown, at, priority, Some(fill.series.digest));
    }
  }

  lemma FundsBefore(rows: seq<LedgerRow>, at: Time)
    requires FundRowsBy(rows, at)
    ensures forall i :: 0 <= i < |rows| && rows[i].entry == Funding ==> rows[i].at <= at
  {
  }

  lemma {:induction false} TakeFillsDated<B>(s: State<B>, fills: seq<GoodFill>, key: Digest, at: Time, priority: nat)
    requires SoundState(s, at) && FilledAt(fills, key, at) && key in s.book.marks
    requires Dated(s, at, priority) && priority in {1, 5}
    ensures Timely(TakeFills(s, fills, at, priority), at, priority)
    decreases |fills|
  {
    hide SoundState;
    hide Dated;
    hide TakeFill;
    if fills != [] {
      var front := fills[..|fills| - 1];
      TakeFillsDated(s, front, key, at, priority);
      TakeFillsSound(s, front, key, at, priority);
      var r := TakeFills(s, front, at, priority);
      if r.Success? {
        TakeFillDated(r.value, fills[|fills| - 1], at, priority);
      }
    }
  }

  lemma HandleDated<B>(s: State<B>, reply: Reply<B>, key: Digest, at: Time, priority: nat)
    requires SoundState(s, at) && Dated(s, at, priority)
    requires FillsNothing(reply) || (Fills(reply, key, at) && key in s.book.marks && priority in {1, 5})
    ensures Timely(Handle(s, reply, at, priority), at, priority)
  {
    hide Sound;
    hide Dated;
    if reply.Success? {
      var (broker, result) := reply.value;
      var s0 := s.(broker := broker);
      var s1 := RecordDecisions(s0, result.decisions, at, priority);
      var s2 := RecordOrders(s1, result.updates, at, priority);
      DecisionsFrame(s0, result.decisions, at, priority);
      OrdersFrame(s1, result.updates, at, priority);
      SoundLater(s.book, s.fills, s.curve, |s.audit|, |s2.audit|, at, at);
      SameDated(s, s0, at, priority);
      DecisionsDated(s0, result.decisions, at, priority);
      OrdersDated(s1, result.updates, at, priority);
      if result.fills != [] {
        TakeFillsDated(s2, result.fills, key, at, priority);
      }
    }
  }

  // ---------------------------------------------------------------- marks, funding, signals

  lemma OnMarkDated<B>(s: State<B>, at: Time, series: Series, price: real, source: MarkSource)
    requires SoundState(s, at) && Dated(s, at, if source == BarOpen then 5 else 2)
    ensures Timely(OnMark(s, at, series, price, source), at, if source == BarOpen then 5 else 2)
  {
    hide Good;
    hide HistoryLaw;
    hide Sequenced;
    hide FillItems;
    hide Drawn;
    hide Dated;
    hide AfterMark;
    var (kind, priority) := if source == BarOpen then (BarOpened, 5) else (MarkUpdated, 2);
    var t := Record(s, kind, at, priority, Some(series.digest));
    RecordDated(s, kind, at, priority, Some(series.digest));
    var r := AfterMark(t.book, series, price, at, source, |t.audit|);
    if r.Success? {
      MarkedRecords(t.book, series, price, at, source, |t.audit|);
      SameItems(t, t.(book := r.value), at, priority);
      RecordDated(t.(book := r.value), PositionShown, at, priority, Some(series.digest));
    }
  }

  lemma MarkedRecords(b: KeyedBook, series: Series, price: real, at: Time, source: MarkSource, sequence: nat)
    requires HistoryLaw(b) && AfterMark(b, series, price, at, source, sequence).Success?
    ensures var c := AfterMark(b, series, price, at, source, sequence).value;
            c.ledger == b.ledger && FillItems(c.snapshots) == FillItems(b.snapshots)
  {
    SetMarkHistory(b, series, price, at, source, sequence);
    hide FillItems;
    hide HistoryLaw;
  }

  lemma SameItems<B>(s: State<B>, t: State<B>, at: Time, priority: nat)
    requires Dated(s, at, priority)
    requires FillItems(t.book.snapshots) == FillItems(s.book.snapshots) && t.book.ledger == s.book.ledger
    requires t.audit == s.audit && t.payments == s.payments && t.intents == s.intents
    ensures Dated(t, at, priority)
  {
    hide InOrder;
    hide RowsBy;
    hide IntentsBy;
    hide FillRows;
    hide FundRowsBy;
    hide Apart;
    hide FillItems;
  }

  /** A payment that no completed-bar fill of its instant accompanies finds only earlier fills of its series. */
  lemma FillsAreEarlier(items: seq<Item>, audit: seq<AuditRow>, payments: seq<FundingPayment>, payment: FundingPayment)
    requires FillRows(items, audit) && RowsBy(audit, payment.at, 3) && Apart(audit, payments + [payment])
    ensures forall x :: x in items && x.snap.series.digest == payment.series.digest ==> x.snap.at < payment.at
  {
    forall x | x in items && x.snap.series.digest == payment.series.digest
      ensures x.snap.at < payment.at
    {
      var i :| 0 <= i < |items| && items[i] == x;
      var n := ItemSequence(items[i]) - 1;
      assert FillRow(x, audit[n]);
      assert NotAfter(audit[n].at, audit[n].priority, payment.at, 3);
      assert !Clash(audit[n], (payments + [payment])[|payments|]);
    }
  }

  lemma PaymentLaw(rate: FundingRate, p: PositionState, mark: real, recordZero: bool, payment: FundingPayment)
    requires PaymentFor(rate, p, mark, recordZero) == Success(Some(payment))
    ensures payment.at == rate.at && payment.series == p.series && (payment.cashFlow != 0.0 ==> p.quantity != 0.0)
  {
  }

  /** Who pays what: only a perpetual position on a settled rate with a known interval, nothing on a zero flow unless
      asked for, and a long pays a positive rate to a short of the same size. */
  lemma FundingLaw(rate: FundingRate, p: PositionState, mark: real, recordZero: bool)
    requires mark > 0.0
    ensures var r := PaymentFor(rate, p, mark, recordZero);
            var perpetual := p.mode == LinearPerpetual && p.series.instrument.kind == PerpetualSwap && !rate.predictedOnly;
            && (r.Failure? <==> perpetual && !rate.grounded) && (r.Failure? ==> r.error == UngroundedInterval)
            && (r == Success(None) <==> !perpetual || (rate.grounded && !recordZero && (p.quantity == 0.0 || rate.rate == 0.0)))
            && (r.Success? && r.value.Some? ==>
                  var pay := r.value.value;
                  && pay.at == rate.at && pay.series == p.series && pay.quantity == p.quantity && pay.mark == mark && pay.rate == rate.rate
                  && pay.cashFlow == -(rate.rate * Exposure(p, Some(Mark(mark, rate.at, BarClose))))
                  && (p.quantity > 0.0 && rate.rate > 0.0 ==> pay.cashFlow < 0.0)
                  && (pay.cashFlow == 0.0 <==> p.quantity == 0.0 || rate.rate == 0.0))
  {
    var held := p.quantity * mark;
    assert -p.quantity * mark == -held;
    assert -held * rate.rate == -(rate.rate * held);
    assert p.quantity != 0.0 ==> held != 0.0;
  }

  /** What the longs pay the shorts receive: opposite holdings pay opposite flows. */
  lemma FundingCancels(rate: FundingRate, p: PositionState, q: PositionState, mark: real, recordZero: bool)
    requires q.quantity == -p.quantity && q.mode == p.mode && q.series.instrument.kind == p.series.instrument.kind
    ensures var x, y := PaymentFor(rate, p, mark, recordZero), PaymentFor(rate, q, mark, recordZero);
            && (x.Success? <==> y.Success?)
            && (x.Success? ==> (x.value.Some? <==> y.value.Some?) && (x.value.Some? ==> x.value.value.cashFlow + y.value.value.cashFlow == 0.0))
  {
    var held := p.quantity * mark;
    assert -p.quantity * mark == -held && -q.quantity * mark == held;
    assert -held * rate.rate == -(held * rate.rate);
  }

  lemma FundOneDated<B>(g: Engine<B>, s: State<B>, at: Time, rate: FundingRate, key: Digest)
    requires SoundState(s, at) && Dated(s, at, 3) && rate.at == at
    ensures Timely(FundOne(g, s, at, rate, key), at, 3)
  {
    hide Good;
    hide HistoryLaw;
    hide Sequenced;
    hide FillItems;
    hide Drawn;
    hide PaymentFor;
    hide InOrder;
    hide RowsBy;
    hide IntentsBy;
    hide FillRows;
    hide FundRowsBy;
    hide Apart;
    hide Grounded;
    var r := FundOne(g, s, at, rate, key);
    if r.Success? && r.value != s {
      var p := s.book.positions[key];
      var payment := PaymentFor(rate, p, s.book.marks[key].price, g.config.recordZero).value.value;
      PaymentLaw(rate, p, s.book.marks[key].price, g.config.recordZero, payment);
      FundRowsGrow(s.book.ledger, s.book, payment, at);
      var t := s.(payments := s.payments + [payment], book := ApplyFunding(s.book, payment));
      if Apart(t.audit, t.payments) {
        FillsAreEarlier(FillItems(s.book.snapshots), s.audit, s.payments, payment);
        ApartBeforePayment(s.audit, s.payments, payment);
        FundingIsGrounded(s.book, payment);
      }
      assert Dated(t, at, 3);
      RecordDated(t, FundingMet, at, 3, Some(key));
    }
  }

  lemma ApartBeforePayment(audit: seq<AuditRow>, payments: seq<FundingPayment>, payment: FundingPayment)
    requires Apart(audit, payments + [payment])
    ensures Apart(audit, payments)
  {
    forall i, j | 0 <= i < |audit| && 0 <= j < |payments|
      ensures !Clash(audit[i], payments[j])
    {
      assert (payments + [payment])[j] == payments[j];
    }
  }

  lemma FundRowsGrow(rows: seq<LedgerRow>, b: Book, payment: FundingPayment, at: Time)
    requires rows == b.ledger && FundRowsBy(rows, at) && payment.at == at
    ensures FundRowsBy(ApplyFunding(b, payment).ledger, at)
  {
  }

  lemma {:induction false} FundAllDated<B>(g: Engine<B>, s: State<B>, at: Time, rate: FundingRate, keys: seq<Digest>)
    requires SoundState(s, at) && Dated(s, at, 3) && rate.at == at
    ensures Timely(FundAll(g, s, at, rate, keys), at, 3)
    decreases |keys|
  {
    hide SoundState;
    hide Dated;
    hide FundOne;
    if keys != [] {
      var front := keys[..|keys| - 1];
      FundAllDated(g, s, at, rate, front);
      FundAllSound(g, s, at, rate, front);
      var r := FundAll(g, s, at, rate, front);
      if r.Success? {
        FundOneDated(g, r.value, at, rate, keys[|keys| - 1]);
      }
    }
  }

  lemma {:induction false} CancelAllDated<B(!new)>(g: Engine<B>, s: State<B>, at: Time, orders: seq<Order>)
    requires Conforming(g.venue) && SoundState(s, at) && Dated(s, at, 4)
    ensures Timely(CancelAll(g, s, at, orders), at, 4)
    decreases |orders|
  {
    hide SoundState;
    hide Dated;
    hide Handle;
    if orders != [] {
      var front := orders[..|orders| - 1];
      CancelAllDated(g, s, at, front);
      CancelAllSound(g, s, at, front);
      var r := CancelAll(g, s, at, front);
      if r.Success? {
        HandleDated(r.value, g.venue.cancel(r.value.broker, orders[|orders| - 1].id, at), 0, at, 4);
      }
    }
  }

  lemma IntentDated<B>(s: State<B>, intent: Intent, decision: Decision, at: Time)
    requires Dated(s, at, 4) && intent.at == at
    ensures Dated(s.(intents := s.intents + [intent], decisions := s.decisions + [decision]), at, 4)
  {
    hide InOrder;
    hide RowsBy;
    hide FillRows;
    hide FundRowsBy;
    hide Apart;
    hide Grounded;
    hide FillItems;
  }

  lemma SubmitDated<B(!new)>(g: Engine<B>, s: State<B>, at: Time, intent: Intent, decision: Decision)
    requires Conforming(g.venue) && SoundState(s, at) && Dated(s, at, 4) && intent.at == at
    ensures Timely(Submit(g, s, at, intent, decision), at, 4)
  {
    hide Sound;
    hide Dated;
    hide Handle;
    var marked := intent.(status := if decision.accepted then Submitted else Blocked);
    var t := s.(intents := s.intents + [marked], decisions := s.decisions + [decision]);
    var v := Record(t, IntentMade, at, 4, Some(intent.series.digest));
    var u := Record(v, RiskDecided, at, 4, Some(decision.series));
    IntentDated(s, marked, decision, at);
    RecordDated(t, IntentMade, at, 4, Some(intent.series.digest));
    RecordDated(v, RiskDecided, at, 4, Some(decision.series));
    if decision.accepted {
      SoundLater(s.book, s.fills, s.curve, |s.audit|, |u.audit|, at, at);
      HandleDated(u, g.venue.submit(u.broker, marked, decision), 0, at, 4);
    }
  }

  lemma OnSignalDated<B(!new)>(g: Engine<B>, s: State<B>, at: Time, signal: Signal)
    requires Conforming(g.venue) && SoundState(s, at) && Dated(s, at, 4)
    ensures Timely(OnSignal(g, s, at, signal), at, 4)
  {
    hide SoundState;
    hide Dated;
    hide Conforming;
    hide CancelAll;
    hide Submit;
    hide SizeFor;
    hide OrderPrices;
    hide ValidIntent;
    hide View;
    hide OpenOrders;
    var key := Some(signal.series.digest);
    var t := Record(s, SignalMet, at, 4, key);
    RecordSound(s, SignalMet, at, 4, key);
    RecordDated(s, SignalMet, at, 4, key);
    CancelAllSound(g, t, at, g.venue.active(t.broker, key));
    CancelAllDated(g, t, at, g.venue.active(t.broker, key));
    var cancels := CancelAll(g, t, at, g.venue.active(t.broker, key));
    if cancels.Success? && SizeFor(g, cancels.value.book, at, signal).Success? {
      var u, sized := cancels.value, SizeFor(g, cancels.value.book, at, signal).value;
      if sized.1.IsNoAction() {
        RecordDated(u, NoActionTaken, at, 4, key);
      } else {
        var intent := IntentFor(g.config, signal, at, sized.0, sized.1, sized.1.side.value);
        var decision := g.guard(intent, intent.reference, PreSubmit, at, View(u.book, OpenOrders(g.venue.active(u.broker, None))), 0.0);
        SubmitDated(g, u, at, intent, decision);
      }
    }
  }

  lemma StepDated<B(!new)>(g: Engine<B>, s: State<B>, e: Event)
    requires Conforming(g.venue) && SoundState(s, e.at) && Ready(s, e) && WellMade(e) && Dated(s, e.at, e.priority)
    ensures Timely(Step(g, s, e), e.at, e.priority)
  {
    hide SoundState;
    hide Dated;
    hide Handle;
    hide OnMark;
    hide OnSignal;
    hide FundAll;
    hide View;
    hide CheckWith;
    match e.payload
    case Completed(b) =>
      var t := Record(s, BarCompleted, e.at, 1, Some(b.series.digest));
      RecordSound(s, BarCompleted, e.at, 1, Some(b.series.digest));
      RecordDated(s, BarCompleted, e.at, 1, Some(b.series.digest));
      HandleDated(t, g.venue.processCompletedBar(t.broker, b.series, e.at, Prices(b.open, b.high, b.low, b.close),
                                       CheckWith(g.guard, e.at, View(t.book, map[]))), b.series.digest, e.at, 1);
    case ClosingMark(b) => OnMarkDated(s, e.at, b.series, b.close, BarClose);
    case Funded(rate) =>
      var t := Record(s, FundingMet, e.at, 3, Some(rate.series.digest));
      RecordSound(s, FundingMet, e.at, 3, Some(rate.series.digest));
      RecordDated(s, FundingMet, e.at, 3, Some(rate.series.digest));
      FundAllDated(g, t, e.at, rate, Ascending(t.book.positions.Keys));
    case Signalled(signal) => OnSignalDated(g, s, e.at, signal);
    case Opening(b) =>
      OnMarkDated(s, e.at, b.series, b.open, BarOpen);
      OnMarkSound(s, e.at, b.series, b.open, BarOpen);
      var r := OnMark(s, e.at, b.series, b.open, BarOpen);
      if r.Success? {
        HandleDated(r.value, g.venue.processBarOpen(r.value.broker, b.series, e.at, b.open, CheckWith(g.guard, e.at, View(r.value.book, map[]))),
                    b.series.digest, e.at, 5);
      }
  }

  lemma CloseGroupDated<B>(s: State<B>, at: Time)
    requires Dated(s, at, 6)
    ensures Timely(CloseGroup(s, at), at, 6)
  {
    hide Dated;
    hide PointAfter;
    var t := s.(book := SnapshotAccount(s.book, at));
    SameDated(s, t, at, 6);
    RecordDated(t, AccountShown, at, 6, None);
    var u := Record(t, AccountShown, at, 6, None);
    if PointAfter(u.book.accounts).Success? {
      SameDated(u, u.(curve := u.curve + [PointAfter(u.book.accounts).value]), at, 6);
    }
  }

  // ---------------------------------------------------------------- whole runs

  lemma InitialDated<B>(g: Engine<B>, startedAt: Time, priority: nat)
    ensures Dated(Initial(g, startedAt), startedAt, priority)
  {
    var b := OpenBook(g.config.initialCash, g.config.currency, startedAt);
    assert b.snapshots == [] && FillItems([]) == [];
    assert |b.ledger| == 1 && b.ledger[0].entry == InitialCash;
  }

  ghost predicate PlayedInOrder<B>(g: Engine<B>, r: Request, h: Hashes, n: nat)
    requires n <= |Ordering(r, h)| && Ordering(r, h) != []
  {
    var events := Ordering(r, h);
    Timely(Play(g, events[0].at, events[..n]), if n == 0 then events[0].at else events[n - 1].at,
           if n == 0 then 0 else events[n - 1].priority)
  }

  lemma {:induction false} PlayDated<B(!new)>(g: Engine<B>, r: Request, h: Hashes, n: nat)
    requires Conforming(g.venue) && ValidRequest(r, h) && Ordering(r, h) != [] && n <= |Ordering(r, h)|
    ensures PlayedInOrder(g, r, h, n)
    decreases n
  {
    hide ValidRequest;
    hide Conforming;
    hide SoundState;
    hide Dated;
    hide AllMarked;
    hide Step;
    hide Turn;
    hide Initial;
    var events := Ordering(r, h);
    if n == 0 {
      InitialDated(g, events[0].at, 0);
      assert events[..0] == [];
    } else {
      var front, e := events[..n - 1], events[n - 1];
      PlayDated(g, r, h, n - 1);
      PlaySound(g, r, h, n - 1);
      WellMadeAt(r, h, n - 1);
      if n > 1 {
        WellMadeAt(r, h, n - 2);
      }
      OrderingIsOrdered(r, h);
      hide Ordering;
      hide WellMade;
      assert events[..n][..n - 1] == front;
      var played := Play(g, events[0].at, front);
      if played.Success? {
        OneMoreDated(g, r, h, n - 1, played.value);
      }
    }
  }

  lemma WellMadeAt(r: Request, h: Hashes, n: nat)
    requires n < |Ordering(r, h)|
    ensures WellMade(Ordering(r, h)[n])
  {
    EventOf(r, h, Ordering(r, h)[n]);
  }

  lemma OneMoreDated<B(!new)>(g: Engine<B>, r: Request, h: Hashes, n: nat, s: State<B>)
    requires Conforming(g.venue) && ValidRequest(r, h) && n < |Ordering(r, h)|
    requires var events := Ordering(r, h);
             && Sorting.Ordered(events, Events.Before) && WellMade(events[n]) && (n > 0 ==> WellMade(events[n - 1]))
             && AllMarked(events[..n], s.book.marks)
             && SoundState(s, if n == 0 then events[0].at else events[n - 1].at)
             && Dated(s, if n == 0 then events[0].at else events[n - 1].at, if n == 0 then 0 else events[n - 1].priority)
    ensures var e := Ordering(r, h)[n]; var turned := Turn(s, Ordering(r, h)[..n], e.at);
            turned.Success? ==> Timely(Step(g, turned.value, e), e.at, e.priority)
  {
    hide ValidRequest;
    hide Conforming;
    hide SoundState;
    hide Dated;
    hide AllMarked;
    hide Step;
    hide Turn;
    TurnSound(s, r, h, n);
    TurnDated(s, Ordering(r, h), n);
    var e := Ordering(r, h)[n];
    var turned := Turn(s, Ordering(r, h)[..n], e.at);
    if turned.Success? {
      ReadyAt(r, h, n, turned.value);
      hide Ordering;
      StepDated(g, turned.value, e);
    }
  }

  lemma TurnDated<B>(s: State<B>, events: seq<Event>, n: nat)
    requires Sorting.Ordered(events, Events.Before) && n < |events| && WellMade(events[n])
    requires Dated(s, if n == 0 then events[0].at else events[n - 1].at, if n == 0 then 0 else events[n - 1].priority)
    requires n > 0 ==> WellMade(events[n - 1])
    ensures Timely(Turn(s, events[..n], events[n].at), events[n].at, events[n].priority)
  {
    hide Dated;
    hide CloseGroup;
    var e := events[n];
    if n == 0 {
      DatedLater(s, e.at, 0, e.at, e.priority);
    } else {
      var d := events[n - 1];
      assert Events.Before(d, e);
      if d.at < e.at {
        DatedLater(s, d.at, d.priority, d.at, 6);
        CloseGroupDated(s, d.at);
        var t := CloseGroup(s, d.at);
        if t.Success? {
          DatedLater(t.value, d.at, 6, e.at, e.priority);
        }
      } else {
        DatedLater(s, d.at, d.priority, e.at, e.priority);
      }
    }
  }

  /** When a bar completes, every intent the engine has made is of an earlier instant: an order submitted by a
      signal of the bar's own closing instant is not there to be filled by it. */
  lemma CompletedBarMeetsEarlierIntents<B(!new)>(g: Engine<B>, r: Request, h: Hashes, n: nat)
    requires Conforming(g.venue) && ValidRequest(r, h) && n < |Ordering(r, h)| && Ordering(r, h)[n].payload.Completed?
    ensures var events := Ordering(r, h); var s := Play(g, events[0].at, events[..n]);
            s.Success? ==> forall i :: 0 <= i < |s.value.intents| ==> s.value.intents[i].at < events[n].at
  {
    var events := Ordering(r, h);
    PlayDated(g, r, h, n);
    EventOf(r, h, events[n]);
    if n > 0 {
      EventOf(r, h, events[n - 1]);
    }
    OrderingIsOrdered(r, h);
    hide Ordering;
    hide Play;
    var s := Play(g, events[0].at, events[..n]);
    if s.Success? {
      if n > 0 {
        assert Events.Before(events[n - 1], events[n]);
        DatedLater(s.value, events[n - 1].at, events[n - 1].priority, events[n].at, 1);
      } else {
        DatedLater(s.value, events[0].at, 0, events[0].at, 1);
      }
      IntentsEarlier(s.value, events[n].at);
    }
  }

  lemma IntentsEarlier<B>(s: State<B>, at: Time)
    requires Dated(s, at, 1)
    ensures forall i :: 0 <= i < |s.intents| ==> s.intents[i].at < at
  {
  }

  /** The audit log of a completed run is numbered from one and ordered by time and priority; and no funding
      is lost unless a completed bar filled the payment's series at the payment's own instant. */
  lemma RunIsChronological<B(!new)>(g: Engine<B>, r: Request, h: Hashes)
    requires Conforming(g.venue) && ValidRequest(r, h) && Ordering(r, h) != []
    ensures Run(g, Ordering(r, h)).Success? ==>
              var s := Run(g, Ordering(r, h)).value.0;
              && InOrder(s.audit)
              && (Apart(s.audit, s.payments) ==> LostFunding(s.book.snapshots, s.book.ledger) == 0.0)
  {
    hide Ordering;
    hide Run;
    hide InOrder;
    hide LostFunding;
    hide Apart;
    hide SoundState;
    hide Dated;
    hide ValidRequest;
    hide Conforming;
    var events := Ordering(r, h);
    if Run(g, events).Success? {
      RunStates(g, events);
      EndIsDated(g, r, h, events);
      EndOfRun(g, r, h);
      GroundedEnd(Run(g, events).value.0, events[|events| - 1].at);
    }
  }

  lemma RunStates<B>(g: Engine<B>, events: seq<Event>)
    requires events != [] && Run(g, events).Success?
    ensures var played := PlayThrough(g, events[0].at, events);
            played.Success? && Finish(g, played.value, events[|events| - 1].at) == Success(Run(g, events).value.0)
  {
    hide PlayThrough;
    hide Finish;
    hide Summarize;
  }

  lemma GroundedEnd<B>(s: State<B>, at: Time)
    requires SoundState(s, at) && Dated(s, at, 7)
    ensures InOrder(s.audit)
    ensures Apart(s.audit, s.payments) ==> LostFunding(s.book.snapshots, s.book.ledger) == 0.0
  {
    hide Good;
    hide HistoryLaw;
    hide Sequenced;
    hide InOrder;
    hide Grounded;
    hide Apart;
    hide LostFunding;
    if Apart(s.audit, s.payments) {
      GroundedLosesNothing(s.book.snapshots, s.book.ledger);
    }
  }

  lemma EndIsDated<B(!new)>(g: Engine<B>, r: Request, h: Hashes, events: seq<Event>)
    requires Conforming(g.venue) && ValidRequest(r, h) && events == Ordering(r, h) && events != []
    ensures var last := events[|events| - 1].at;
            var played := PlayThrough(g, events[0].at, events);
            played.Success? ==> Timely(Finish(g, played.value, last), last, 7)
  {
    var last := events[|events| - 1];
    LastIsDated(g, r, h, events);
    hide Ordering;
    hide ValidRequest;
    hide Conforming;
    hide Play;
    hide Dated;
    hide SoundState;
    hide Finish;
    hide CloseGroup;
    hide Timely;
    var played := Play(g, events[0].at, events);
    if played.Success? {
      FinishDated(g, played.value, last.at);
    }
  }

  lemma LastIsDated<B(!new)>(g: Engine<B>, r: Request, h: Hashes, events: seq<Event>)
    requires Conforming(g.venue) && ValidRequest(r, h) && events == Ordering(r, h) && events != []
    ensures var last := events[|events| - 1].at;
            var played := Play(g, events[0].at, events);
            played.Success? ==> SoundState(played.value, last) && Dated(played.value, last, 6)
  {
    hide Ordering;
    hide ValidRequest;
    hide Conforming;
    hide Play;
    hide Dated;
    hide SoundState;
    hide AllMarked;
    var n := |events|;
    var last := events[n - 1];
    PlayDated(g, r, h, n);
    PlaySound(g, r, h, n);
    EventOf(r, h, last);
    assert events[..n] == events;
    var played := Play(g, events[0].at, events);
    if played.Success? {
      DatedLater(played.value, last.at, last.priority, last.at, 6);
    }
  }

  lemma FinishDated<B(!new)>(g: Engine<B>, s: State<B>, at: Time)
    requires Conforming(g.venue) && SoundState(s, at) && Dated(s, at, 6)
    ensures var closed := CloseGroup(s, at); closed.Success? ==> Timely(Finish(g, closed.value, at), at, 7)
  {
    hide Dated;
    hide SoundState;
    hide CloseGroup;
    hide Handle;
    CloseGroupDated(s, at);
    CloseGroupSound(s, at);
    var closed := CloseGroup(s, at);
    if closed.Success? {
      DatedLater(closed.value, at, 6, at, 7);
      HandleDated(closed.value, g.venue.expire(closed.value.broker, at), 0, at, 7);
    }
  }
}
