/** What the engine tells its broker, and what it takes from the broker's answers (`run` and `handle_broker_result` in
    backtesting/engine.py), for any broker and any risk guard. */
module EngineLaws {
  import opened Results
  import opened Models
  import opened MapSums
  import opened Accounting
  import opened Events
  import opened Backtest
  import opened Sizing
  import Metrics
  import Positions

  // ---------------------------------------------------------------- one answer of the broker

  /** The book after some fills, when the first is shown under number `n + 1` and each takes two rows of the audit trail. */
  function BookFills(b: KeyedBook, fills: seq<GoodFill>, n: nat): Result<KeyedBook, Error> {
    if fills == [] then Success(b)
    else
      var front := fills[..|fills| - 1];
      var c :- BookFills(b, front, n);
      AfterFill(c, fills[|fills| - 1], n + 2 * |front| + 1)
  }

  /** The last of `updates` about one order. */
  function LastOf(updates: seq<Order>, id: Uuid): Option<Order> {
    if updates == [] then None
    else if updates[|updates| - 1].id == id then Some(updates[|updates| - 1])
    else LastOf(updates[..|updates| - 1], id)
  }

  function Lookup(orders: map<Uuid, Order>, id: Uuid): Option<Order> {
    if id in orders then Some(orders[id]) else None
  }

  /** Every order is as it was last reported. */
  ghost predicate LastWord(before: map<Uuid, Order>, updates: seq<Order>, after: map<Uuid, Order>) {
    forall id: Uuid :: Lookup(after, id) == if LastOf(updates, id).Some? then LastOf(updates, id) else Lookup(before, id)
  }

  predicate RowIs(audit: seq<AuditRow>, i: nat, at: Time, priority: nat, kind: EventKind, key: Digest) {
    i < |audit| && audit[i] == AuditRow(i + 1, at, priority, kind, Some(key))
  }

  /** The rows an answer adds: its decisions, its order updates, then two for each fill. */
  predicate RowsOf(before: seq<AuditRow>, result: BrokerResult, at: Time, priority: nat, after: seq<AuditRow>) {
    var n, d, u := |before|, |result.decisions|, |result.updates|;
    && |after| == n + d + u + 2 * |result.fills| && before <= after
    && (forall i :: 0 <= i < d ==> RowIs(after, n + i, at, priority, RiskDecided, result.decisions[i].series))
    && (forall i :: 0 <= i < u ==> RowIs(after, n + d + i, at, priority, OrderMoved(result.updates[i].status), result.updates[i].series.digest))
    && (forall i :: 0 <= i < |result.fills| ==> FillShown(after, n + d + u + 2 * i, at, priority, result.fills[i]))
  }

  predicate FillShown(audit: seq<AuditRow>, i: nat, at: Time, priority: nat, fill: GoodFill) {
    RowIs(audit, i, at, priority, FillMade, fill.series.digest) && RowIs(audit, i + 1, at, priority, PositionShown, fill.series.digest)
  }

  /** The state after an answer: everything in it is recorded, in order, and its fills are booked. */
  ghost predicate Heard<B>(s: State<B>, result: BrokerResult, at: Time, priority: nat, t: State<B>) {
    && t.fills == s.fills + result.fills && t.decisions == s.decisions + result.decisions
    && t.intents == s.intents && t.payments == s.payments && t.curve == s.curve
    && LastWord(s.orders, result.updates, t.orders)
    && RowsOf(s.audit, result, at, priority, t.audit)
    && BookFills(s.book, result.fills, |s.audit| + |result.decisions| + |result.updates|) == Success(t.book)
  }

  lemma {:induction false} DecisionsHeard<B>(s: State<B>, ds: seq<Decision>, at: Time, priority: nat)
    ensures var t := RecordDecisions(s, ds, at, priority);
            && t == s.(decisions := s.decisions + ds, audit := t.audit)
            && |t.audit| == |s.audit| + |ds| && s.audit <= t.audit
            && forall i :: 0 <= i < |ds| ==> RowIs(t.audit, |s.audit| + i, at, priority, RiskDecided, ds[i].series)
    decreases |ds|
  {
    if ds != [] {
      var n := |ds| - 1;
      DecisionsHeard(s, ds[..n], at, priority);
      assert ds == ds[..n] + [ds[n]];
    }
  }

  lemma {:induction false} OrdersHeard<B>(s: State<B>, os: seq<Order>, at: Time, priority: nat)
    ensures var t := RecordOrders(s, os, at, priority);
            && t == s.(orders := t.orders, audit := t.audit)
            && |t.audit| == |s.audit| + |os| && s.audit <= t.audit
            && forall i :: 0 <= i < |os| ==> RowIs(t.audit, |s.audit| + i, at, priority, OrderMoved(os[i].status), os[i].series.digest)
    decreases |os|
  {
    if os != [] {
      OrdersHeard(s, os[..|os| - 1], at, priority);
    }
  }

  lemma {:induction false} LastWordHeard<B>(s: State<B>, os: seq<Order>, at: Time, priority: nat)
    ensures LastWord(s.orders, os, RecordOrders(s, os, at, priority).orders)
    decreases |os|
  {
    if os != [] {
      LastWordHeard(s, os[..|os| - 1], at, priority);
    }
  }

  lemma TakeFillHeard<B>(s: State<B>, fill: GoodFill, at: Time, priority: nat)
    ensures var r, book := TakeFill(s, fill, at, priority), AfterFill(s.book, fill, |s.audit| + 1);
            && (r.Success? <==> book.Success?) && (r.Failure? ==> r.error == book.error)
            && (r.Success? ==>
                  var t := r.value;
                  && t == s.(fills := s.fills + [fill], book := book.value, audit := t.audit)
                  && |t.audit| == |s.audit| + 2 && s.audit <= t.audit && FillShown(t.audit, |s.audit|, at, priority, fill))
  {
    hide AfterFill;
  }

  /** Rows already there stay where they are. */
  lemma ShownStill(before: seq<AuditRow>, after: seq<AuditRow>, i: nat, at: Time, priority: nat, fill: GoodFill)
    requires before <= after && FillShown(before, i, at, priority, fill)
    ensures FillShown(after, i, at, priority, fill)
  {
  }

  lemma {:induction false} FillsHeard<B>(s: State<B>, fills: seq<GoodFill>, at: Time, priority: nat)
    ensures var r, books := TakeFills(s, fills, at, priority), BookFills(s.book, fills, |s.audit|);
            && (r.Success? <==> books.Success?) && (r.Failure? ==> r.error == books.error)
            && (r.Success? ==>
                  var t := r.value;
                  && t == s.(fills := s.fills + fills, book := books.value, audit := t.audit)
                  && |t.audit| == |s.audit| + 2 * |fills| && s.audit <= t.audit
                  && forall i :: 0 <= i < |fills| ==> FillShown(t.audit, |s.audit| + 2 * i, at, priority, fills[i]))
    decreases |fills|
  {
    hide AfterFill;
    hide TakeFill;
    hide FillShown;
    if fills != [] {
      var n := |fills| - 1;
      FillsHeard(s, fills[..n], at, priority);
      var front := TakeFills(s, fills[..n], at, priority);
      if front.Success? {
        var t := front.value;
        TakeFillHeard(t, fills[n], at, priority);
        if TakeFills(s, fills, at, priority).Success? {
          var u := TakeFills(s, fills, at, priority).value;
          assert s.fills + fills == t.fills + [fills[n]];
          forall i | 0 <= i < |fills|
            ensures FillShown(u.audit, |s.audit| + 2 * i, at, priority, fills[i])
          {
            if i < n {
              assert fills[i] == fills[..n][i];
              ShownStill(t.audit, u.audit, |s.audit| + 2 * i, at, priority, fills[i]);
            }
          }
        }
      }
    }
  }

  lemma RowsJoin(before: seq<AuditRow>, decided: seq<AuditRow>, moved: seq<AuditRow>, after: seq<AuditRow>, result: BrokerResult, at: Time,
                 priority: nat)
    requires before <= decided <= moved <= after
    requires |decided| == |before| + |result.decisions| && |moved| == |decided| + |result.updates| && |after| == |moved| + 2 * |result.fills|
    requires forall i :: 0 <= i < |result.decisions| ==> RowIs(decided, |before| + i, at, priority, RiskDecided, result.decisions[i].series)
    requires forall i :: 0 <= i < |result.updates| ==>
               RowIs(moved, |decided| + i, at, priority, OrderMoved(result.updates[i].status), result.updates[i].series.digest)
    requires forall i :: 0 <= i < |result.fills| ==> FillShown(after, |moved| + 2 * i, at, priority, result.fills[i])
    ensures RowsOf(before, result, at, priority, after)
  {
    hide FillShown;
  }

  /** What becomes of a state on an answer: it raises, or is recorded in full. */
  ghost predicate Answered<B>(s: State<B>, reply: Reply<B>, at: Time, priority: nat, r: Result<State<B>, Error>) {
    match r
    case Failure(e) =>
      if reply.Failure? then e == BrokerRaised
      else
        var result := reply.value.1;
        BookFills(s.book, result.fills, |s.audit| + |result.decisions| + |result.updates|) == Failure(e)
    case Success(t) => reply.Success? && t.broker == reply.value.0 && Heard(s, reply.value.1, at, priority, t)
  }

  lemma HandleLaw<B>(s: State<B>, reply: Reply<B>, at: Time, priority: nat)
    ensures Answered(s, reply, at, priority, Handle(s, reply, at, priority))
  {
    hide AfterFill;
    if reply.Success? {
      var (broker, result) := reply.value;
      var s0 := s.(broker := broker);
      var s1 := RecordDecisions(s0, result.decisions, at, priority);
      var s2 := RecordOrders(s1, result.updates, at, priority);
      assert Handle(s, reply, at, priority) == TakeFills(s2, result.fills, at, priority);
      AnswerTaken(s, s0, s1, s2, result, at, priority);
    }
  }

  lemma AnswerTaken<B>(s: State<B>, s0: State<B>, s1: State<B>, s2: State<B>, result: BrokerResult, at: Time, priority: nat)
    requires s0 == s.(broker := s0.broker)
    requires s1 == RecordDecisions(s0, result.decisions, at, priority) && s2 == RecordOrders(s1, result.updates, at, priority)
    ensures var n := |s.audit| + |result.decisions| + |result.updates|;
            match TakeFills(s2, result.fills, at, priority)
            case Failure(e) => BookFills(s.book, result.fills, n) == Failure(e)
            case Success(t) => t.broker == s0.broker && Heard(s, result, at, priority, t)
  {
    DecisionsHeard(s0, result.decisions, at, priority);
    OrdersHeard(s1, result.updates, at, priority);
    LastWordHeard(s1, result.updates, at, priority);
    FillsHeard(s2, result.fills, at, priority);
    hide *;
    var r := TakeFills(s2, result.fills, at, priority);
    assert |s2.audit| == |s.audit| + |result.decisions| + |result.updates| && s2.book == s.book && s2.fills == s.fills;
    if r.Success? {
      RowsJoin(s.audit, s1.audit, s2.audit, r.value.audit, result, at, priority);
      HeardOf(s, r.value, result, at, priority);
    }
  }

  lemma HeardOf<B>(s: State<B>, t: State<B>, result: BrokerResult, at: Time, priority: nat)
    requires t.fills == s.fills + result.fills && t.decisions == s.decisions + result.decisions
    requires t.intents == s.intents && t.payments == s.payments && t.curve == s.curve
    requires LastWord(s.orders, result.updates, t.orders) && RowsOf(s.audit, result, at, priority, t.audit)
    requires BookFills(s.book, result.fills, |s.audit| + |result.decisions| + |result.updates|) == Success(t.book)
    ensures Heard(s, result, at, priority, t)
  {
  }

  // ---------------------------------------------------------------- one fill

  function Paid(fill: Fill): real {
    if fill.side == Buy then -(fill.quantity * fill.price) else fill.quantity * fill.price
  }

  /** The rows a fill writes: on Spot what was paid or received, on a perpetual what was realized if anything was, and the
      fee if there is one; each numbered on from the last, with the cash it leaves. */
  function RowsWritten(b: Book, fill: Fill, delta: real): seq<LedgerRow> {
    var k, id, n := Some(fill.series.digest), Some(fill.id), |b.ledger|;
    var paid := Paid(fill);
    var trade := if fill.mode == Spot then [LedgerRow(fill.filledAt, SpotNotional, paid, b.cash + paid, n, k, id)]
                 else if delta != 0.0 then [LedgerRow(fill.filledAt, RealizedPnl, delta, b.cash + delta, n, k, id)]
                 else [];
    var cash := if fill.mode == Spot then b.cash + paid else b.cash + delta;
    trade + if fill.fee != 0.0 then [LedgerRow(fill.filledAt, Fee, -fill.fee, cash - fill.fee, n + |trade|, k, id)] else []
  }

  /** The position after a fill: its quantity moved by the fill, what it realized added, and the fill in its history. */
  predicate Moved(p: Option<PositionState>, fill: Fill, delta: real, q: PositionState) {
    var signed := if fill.side == Buy then fill.quantity else -fill.quantity;
    && q.updatedAt == fill.filledAt && q.mode == fill.mode && q.series == (if p.Some? then p.value.series else fill.series)
    && q.quantity == (if p.Some? then p.value.quantity else 0.0) + signed
    && q.realized == (if p.Some? then p.value.realized else 0.0) + delta
    && q.sourceFills == (if p.Some? then p.value.sourceFills else []) + [fill.id]
  }

  /** A position as a fill shows it, at whatever mark its series has. */
  function ShownByFill(b: Book, q: PositionState, fill: Fill, sequence: nat): PositionSnapshot {
    var mark := MarkOf(b.marks, fill.series.digest);
    PositionSnapshot(q.series, fill.filledAt, q.quantity, q.average, if mark.Some? then Some(mark.value.price) else None, q.realized,
                     if mark.Some? && q.average.Some? then q.quantity * (mark.value.price - q.average.value) else 0.0,
                     if mark.Some? then Some(fill.filledAt - mark.value.at) else None, FillSnapshot,
                     if mark.Some? then Some(mark.value.source) else None, sequence, Some(fill.id))
  }

  /** A booked fill: the position and the rows of the ledger move by what the fill trades and charges, the position is shown,
      and nothing else moves. */
  ghost predicate Booked(b: Book, fill: Fill, sequence: nat, c: Book) {
    var k := fill.series.digest;
    var p := if k in b.positions then Some(b.positions[k]) else None;
    k in c.positions
    && var q := c.positions[k];
       var delta := q.realized - (if p.Some? then p.value.realized else 0.0);
       && Moved(p, fill, delta, q)
       && c == b.(cash := c.cash, ledger := b.ledger + RowsWritten(b, fill, delta), positions := b.positions[k := q],
                  snapshots := b.snapshots + [ShownByFill(b, q, fill, sequence)], applied := b.applied + {fill.id},
                  totalFees := b.totalFees + fill.fee)
       && c.cash == b.cash + SumOf(RowsWritten(b, fill, delta))
  }

  function SumOf(rows: seq<LedgerRow>): real {
    if rows == [] then 0.0 else SumOf(rows[..|rows| - 1]) + rows[|rows| - 1].amount
  }

  lemma SumOfTwo(rows: seq<LedgerRow>)
    ensures |rows| == 1 ==> SumOf(rows) == rows[0].amount
    ensures |rows| == 2 ==> SumOf(rows) == rows[0].amount + rows[1].amount
  {
    if |rows| == 1 {
      assert rows[..0] == [];
    } else if |rows| == 2 {
      assert rows[..1] == [rows[0]] && [rows[0]][..0] == [];
      assert SumOf(rows[..1]) == rows[0].amount;
    }
  }

  /** A fill is refused when it has been applied, is charged in another currency, is of a position of another kind, sells more
      of a Spot holding than there is, or is older than the mark it would be shown at; otherwise it is booked. */
  lemma FillLaw(b: KeyedBook, fill: GoodFill, sequence: nat)
    ensures var k := fill.series.digest;
            var held := HeldIn(b, k) + (if fill.side == Buy then fill.quantity else -fill.quantity);
            match AfterFill(b, fill, sequence)
            case Success(c) =>
              && fill.id !in b.applied && fill.feeCurrency == b.currency && (k in b.positions ==> b.positions[k].mode == fill.mode)
              && (fill.mode == Spot ==> held >= 0.0) && (k in b.marks ==> b.marks[k].at <= fill.filledAt)
              && Booked(b, fill, sequence, c)
            case Failure(e) =>
              if fill.id in b.applied then e == DuplicateFill
              else if fill.feeCurrency != b.currency then e == FeeCurrencyMismatch
              else if k in b.positions && fill.id in b.positions[k].sourceFills then e == DuplicateFill
              else if k in b.positions && b.positions[k].mode != fill.mode then e == ModeMismatch
              else if fill.mode == Spot && held < 0.0 then e == NegativeSpot
              else k in b.marks && b.marks[k].at > fill.filledAt && e == NegativeMarkAge
  {
    var p := PositionFor(b, fill.series, fill.mode, fill.filledAt);
    PositionForLaw(b, fill.series, fill.mode, fill.filledAt);
    TransitionCases(b, p, fill);
    match Positions.ApplyFillToPosition(p, fill)
    case Success(t) => FillTaken(b, p, fill, t, sequence);
    case Failure(e) => FillRefused(b, p, fill, e, sequence);
    hide AfterFill;
    hide Booked;
    hide Keyed;
    hide PositionFor;
    hide Positions.ApplyFillToPosition;
  }

  lemma FillRefused(b: KeyedBook, p: PositionState, fill: GoodFill, e: Error, sequence: nat)
    requires p == PositionFor(b, fill.series, fill.mode, fill.filledAt) && ValidPosition(p) && Positions.ApplyFillToPosition(p, fill) == Failure(e)
    ensures AfterFill(b, fill, sequence) ==
              Failure(if fill.id in b.applied then DuplicateFill else if fill.feeCurrency != b.currency then FeeCurrencyMismatch else e)
  {
    hide Positions.ApplyFillToPosition;
    hide PositionFor;
    hide Keyed;
  }

  lemma FillTaken(b: KeyedBook, p: PositionState, fill: GoodFill, t: Positions.Transition, sequence: nat)
    requires p == PositionFor(b, fill.series, fill.mode, fill.filledAt) && ValidPosition(p) && Positions.ApplyFillToPosition(p, fill) == Success(t)
    requires ValidPosition(t.state) && t.state.series.digest == fill.series.digest
    ensures var k := fill.series.digest;
            match AfterFill(b, fill, sequence)
            case Success(c) =>
              fill.id !in b.applied && fill.feeCurrency == b.currency && (k in b.marks ==> b.marks[k].at <= fill.filledAt) && Booked(b, fill, sequence, c)
            case Failure(e) =>
              if fill.id in b.applied then e == DuplicateFill
              else if fill.feeCurrency != b.currency then e == FeeCurrencyMismatch
              else k in b.marks && b.marks[k].at > fill.filledAt && e == NegativeMarkAge
  {
    var c := PostFill(b, fill, t).(snapshots := b.snapshots + [ShownByFill(b, t.state, fill, sequence)]);
    ShownLaw(b, fill, t, sequence);
    PostedRows(b, fill, t);
    ApplyCases(b, p, fill, t, sequence);
    hide PostFill;
    hide Positions.ApplyFillToPosition;
    hide PositionFor;
    hide Keyed;
    hide RowsWritten;
    hide ShownByFill;
    hide SumOf;
    hide ApplyFill;
    hide Booked;
    BookedLaw(b, p, fill, t, sequence, c);
  }

  lemma ApplyCases(b: KeyedBook, p: PositionState, fill: GoodFill, t: Positions.Transition, sequence: nat)
    requires p == PositionFor(b, fill.series, fill.mode, fill.filledAt) && ValidPosition(p) && Positions.ApplyFillToPosition(p, fill) == Success(t)
    requires t.state.series.digest == fill.series.digest && PostFill(b, fill, t).marks == b.marks && PostFill(b, fill, t).snapshots == b.snapshots
    requires Snapshot(PostFill(b, fill, t), t.state, fill.filledAt, FillSnapshot, sequence, Some(fill.id)) == ShownByFill(b, t.state, fill, sequence)
    ensures var r, k := ApplyFill(b, fill, sequence), fill.series.digest;
            if fill.id in b.applied then r.raised == Some(DuplicateFill)
            else if fill.feeCurrency != b.currency then r.raised == Some(FeeCurrencyMismatch)
            else if k in b.marks && b.marks[k].at > fill.filledAt then r.raised == Some(NegativeMarkAge)
            else r == Outcome(PostFill(b, fill, t).(snapshots := b.snapshots + [ShownByFill(b, t.state, fill, sequence)]), None)
  {
    hide PostFill;
    hide Snapshot;
    hide ShownByFill;
    hide Positions.ApplyFillToPosition;
    hide Keyed;
  }

  lemma TransitionCases(b: KeyedBook, p: PositionState, fill: GoodFill)
    requires p == PositionFor(b, fill.series, fill.mode, fill.filledAt) && ValidPosition(p) && p.series.digest == fill.series.digest
    ensures var k := fill.series.digest;
            var held := HeldIn(b, k) + (if fill.side == Buy then fill.quantity else -fill.quantity);
            match Positions.ApplyFillToPosition(p, fill)
            case Success(t) =>
              && (k in b.positions ==> b.positions[k].mode == fill.mode) && (fill.mode == Spot ==> held >= 0.0)
              && ValidPosition(t.state) && t.state.series.digest == k
            case Failure(e) =>
              if k in b.positions && fill.id in b.positions[k].sourceFills then e == DuplicateFill
              else if k in b.positions && b.positions[k].mode != fill.mode then e == ModeMismatch
              else e == NegativeSpot && fill.mode == Spot && held < 0.0
  {
    Positions.ApplyFillLaw(p, fill);
    if p.mode == fill.mode {
      Positions.MoveShape(p.mode, Positions.HoldingOf(p), Signed(fill), fill.price);
    }
    hide Positions.Shape;
    hide Positions.Move;
    hide Keyed;
  }

  lemma PostedRows(b: Book, fill: Fill, t: Positions.Transition)
    ensures var c, rows := PostFill(b, fill, t), RowsWritten(b, fill, t.realizedDelta);
            && c == b.(cash := c.cash, ledger := b.ledger + rows, positions := b.positions[fill.series.digest := t.state],
                       applied := b.applied + {fill.id}, totalFees := b.totalFees + fill.fee)
            && c.cash == b.cash + SumOf(rows)
  {
    var rows := RowsWritten(b, fill, t.realizedDelta);
    SumOfTwo(rows);
    assert rows == [] ==> SumOf(rows) == 0.0;
    PaidLaw(fill);
    hide Paid;
    hide SpotCash;
    hide SumOf;
    var traded := PostTrade(b, fill, t);
    assert PostFee(traded, fill).ledger == b.ledger + rows;
  }

  lemma PaidLaw(fill: Fill)
    ensures SpotCash(fill) == Paid(fill)
  {
  }

  lemma ShownLaw(b: Book, fill: Fill, t: Positions.Transition, sequence: nat)
    requires ValidPosition(t.state) && t.state.series.digest == fill.series.digest
    ensures Snapshot(PostFill(b, fill, t), t.state, fill.filledAt, FillSnapshot, sequence, Some(fill.id)) == ShownByFill(b, t.state, fill, sequence)
    ensures PostFill(b, fill, t).marks == b.marks
  {
    hide SpotCash;
  }

  lemma BookedLaw(b: KeyedBook, p: PositionState, fill: GoodFill, t: Positions.Transition, sequence: nat, c: Book)
    requires p == PositionFor(b, fill.series, fill.mode, fill.filledAt) && ValidPosition(p) && Positions.ApplyFillToPosition(p, fill) == Success(t)
    requires c == b.(cash := c.cash, ledger := b.ledger + RowsWritten(b, fill, t.realizedDelta), positions := b.positions[fill.series.digest := t.state],
                     snapshots := b.snapshots + [ShownByFill(b, t.state, fill, sequence)], applied := b.applied + {fill.id},
                     totalFees := b.totalFees + fill.fee)
    requires c.cash == b.cash + SumOf(RowsWritten(b, fill, t.realizedDelta))
    ensures Booked(b, fill, sequence, c)
  {
    MovedTo(b, p, fill, t);
    hide Positions.ApplyFillToPosition;
    hide RowsWritten;
    hide SumOf;
    hide ShownByFill;
    hide Moved;
    hide Keyed;
  }

  lemma MovedTo(b: KeyedBook, p: PositionState, fill: GoodFill, t: Positions.Transition)
    requires p == PositionFor(b, fill.series, fill.mode, fill.filledAt) && ValidPosition(p) && Positions.ApplyFillToPosition(p, fill) == Success(t)
    ensures var k := fill.series.digest;
            var held := if k in b.positions then Some(b.positions[k]) else None;
            Moved(held, fill, t.realizedDelta, t.state) && t.realizedDelta == t.state.realized - (if held.Some? then held.value.realized else 0.0)
  {
    Positions.ApplyFillLaw(p, fill);
    hide Positions.Shape;
    hide Positions.Move;
    hide Keyed;
  }

  // ---------------------------------------------------------------- bars

  /** The check handed to the broker asks the guard about a fill, showing it the book as it stands. */
  ghost predicate Asks(check: RiskCheck, guard: Guard, at: Time, b: Book) {
    forall intent: Intent, price: real, liquidity: Liquidity, fee: real, open: map<Digest, nat> ::
      check(intent, price, liquidity, fee, open)
      == guard(intent, price, PreFill, at, RiskView(b.cash, Equity(b), b.peak, b.positions, map k | k in b.marks :: b.marks[k].price, open), fee)
  }

  /** A completed bar: the event is recorded, and the broker is shown the whole bar. */
  lemma CompletedLaw<B>(g: Engine<B>, s: State<B>, at: Time, b: Bar) returns (check: RiskCheck)
    ensures Asks(check, g.guard, at, s.book)
    ensures var t := Record(s, BarCompleted, at, 1, Some(b.series.digest));
            Answered(t, g.venue.processCompletedBar(s.broker, b.series, at, Prices(b.open, b.high, b.low, b.close), check), at, 1,
                     OnCompleted(g, s, at, b))
  {
    hide Answered;
    hide Handle;
    var t := Record(s, BarCompleted, at, 1, Some(b.series.digest));
    check := CheckWith(g.guard, at, View(t.book, map[]));
    HandleLaw(t, g.venue.processCompletedBar(t.broker, b.series, at, Prices(b.open, b.high, b.low, b.close), check), at, 1);
  }

  /** A mark that is set: the price is the series' mark, a held position is shown at it, and nothing else moves. */
  ghost predicate Marked<B>(s: State<B>, at: Time, series: Series, price: real, source: MarkSource, t: State<B>) {
    var k, n, held := series.digest, |s.audit|, series.digest in s.book.positions;
    && t == s.(book := t.book, audit := t.audit)
    && t.book == s.book.(marks := s.book.marks[k := Mark(price, at, source)], snapshots := t.book.snapshots)
    && |t.audit| == n + (if held then 2 else 1) && s.audit <= t.audit
    && RowIs(t.audit, n, at, if source == BarOpen then 5 else 2, if source == BarOpen then BarOpened else MarkUpdated, k)
    && (held ==> RowIs(t.audit, n + 1, at, if source == BarOpen then 5 else 2, PositionShown, k))
    && (!held ==> t.book.snapshots == s.book.snapshots)
    && (held ==> t.book.snapshots == s.book.snapshots + [ShownAt(s.book.positions[k], at, price, source, n + 1)])
  }

  /** A position as it is shown at a mark of this instant. */
  function ShownAt(p: PositionState, at: Time, price: real, source: MarkSource, sequence: nat): PositionSnapshot {
    PositionSnapshot(p.series, at, p.quantity, p.average, Some(price), p.realized,
                     if p.average.Some? then p.quantity * (price - p.average.value) else 0.0, Some(0),
                     if source == BarOpen then OpenMarkSnapshot else CloseMarkSnapshot, Some(source), sequence, None)
  }

  lemma MarkLaw<B>(s: State<B>, at: Time, series: Series, price: real, source: MarkSource)
    ensures match OnMark(s, at, series, price, source)
            case Failure(e) => price <= 0.0 && e == BadMark
            case Success(t) => price > 0.0 && Marked(s, at, series, price, source, t)
  {
    if series.digest in s.book.positions {
      var p := s.book.positions[series.digest];
      assert p.series.digest == series.digest && (p.quantity == 0.0 <==> p.average.None?);
      assert Snapshot(s.book.(marks := s.book.marks[series.digest := Mark(price, at, source)]), p, at,
                      if source == BarOpen then OpenMarkSnapshot else CloseMarkSnapshot, |s.audit| + 1, None)
          == ShownAt(p, at, price, source, |s.audit| + 1);
    }
    hide Keyed;
    hide ValidPosition;
  }

  /** A bar that opens: its open becomes the mark, and only then is the broker told the open. */
  lemma OpenLaw<B>(g: Engine<B>, s: State<B>, at: Time, series: Series, price: real) returns (check: RiskCheck)
    ensures price <= 0.0 ==> OnOpen(g, s, at, series, price) == Failure(BadMark)
    ensures price > 0.0 ==>
              OnMark(s, at, series, price, BarOpen).Success?
              && var t := OnMark(s, at, series, price, BarOpen).value;
              && Asks(check, g.guard, at, t.book)
              && Answered(t, g.venue.processBarOpen(s.broker, series, at, price, check), at, 5, OnOpen(g, s, at, series, price))
  {
    hide Answered;
    hide Handle;
    hide OnMark;
    MarkLaw(s, at, series, price, BarOpen);
    var marked := OnMark(s, at, series, price, BarOpen);
    check := CheckWith(g.guard, at, View(s.book, map[]));
    if marked.Success? {
      var t := marked.value;
      check := CheckWith(g.guard, at, View(t.book, map[]));
      HandleLaw(t, g.venue.processBarOpen(t.broker, series, at, price, check), at, 5);
    }
  }

  // ---------------------------------------------------------------- funding

  /** The positions a rate applies to: marked perpetuals in its own instrument. */
  predicate Owes(rate: FundingRate, b: Book, k: Digest) {
    && k in b.positions && k in b.marks && b.positions[k].series.instrument == rate.series.instrument
    && b.positions[k].mode == LinearPerpetual && b.positions[k].series.instrument.kind == PerpetualSwap
  }

  /** Longs pay a positive rate on their value at the mark, and shorts receive it. */
  function Owed(rate: FundingRate, b: Book, k: Digest): FundingPayment
    requires Owes(rate, b, k)
  {
    var q, price := b.positions[k].quantity, b.marks[k].price;
    FundingPayment(b.positions[k].series, rate.at, q, price, rate.rate, -q * price * rate.rate)
  }

  predicate Pays(rate: FundingRate, b: Book, k: Digest, recordZero: bool) {
    Owes(rate, b, k) && !rate.predictedOnly && (recordZero || Owed(rate, b, k).cashFlow != 0.0)
  }

  /** What a rate pays to some series, all on the book it finds. */
  function PaymentsOn(rate: FundingRate, b: Book, keys: seq<Digest>, recordZero: bool): seq<FundingPayment> {
    if keys == [] then []
    else
      var k := keys[|keys| - 1];
      PaymentsOn(rate, b, keys[..|keys| - 1], recordZero) + (if Pays(rate, b, k, recordZero) then [Owed(rate, b, k)] else [])
  }

  function FlowsOf(payments: seq<FundingPayment>): real {
    if payments == [] then 0.0 else FlowsOf(payments[..|payments| - 1]) + payments[|payments| - 1].cashFlow
  }

  lemma {:induction false} PaymentsAre(rate: FundingRate, b: Book, keys: seq<Digest>, recordZero: bool)
    ensures forall p :: p in PaymentsOn(rate, b, keys, recordZero) <==>
              exists k :: k in keys && Pays(rate, b, k, recordZero) && p == Owed(rate, b, k)
    decreases |keys|
  {
    if keys != [] {
      var n := |keys| - 1;
      PaymentsAre(rate, b, keys[..n], recordZero);
      assert keys == keys[..n] + [keys[n]];
      hide Owed;
      hide Owes;
    }
  }

  /** Nothing of a book changes but cash, the ledger and the funding total. */
  predicate OnlyFunded(b: Book, c: Book, flows: real) {
    && c == b.(cash := c.cash, ledger := c.ledger, totalFunding := c.totalFunding)
    && c.cash == b.cash + flows && c.totalFunding == b.totalFunding + flows
  }

  /** A row of the audit trail for each payment. */
  predicate FundingRows(before: seq<AuditRow>, payments: seq<FundingPayment>, at: Time, after: seq<AuditRow>) {
    && |after| == |before| + |payments| && before <= after
    && forall i :: 0 <= i < |payments| ==> RowIs(after, |before| + i, at, 3, FundingMet, payments[i].series.digest)
  }

  predicate PaidRow(row: LedgerRow, n: nat, p: FundingPayment) {
    row == LedgerRow(p.at, Funding, p.cashFlow, row.balanceAfter, n, Some(p.series.digest), None)
  }

  /** A row of the ledger for each payment. */
  predicate FundingLedger(before: seq<LedgerRow>, payments: seq<FundingPayment>, after: seq<LedgerRow>) {
    && |after| == |before| + |payments| && before <= after
    && forall i :: 0 <= i < |payments| ==> PaidRow(after[|before| + i], |before| + i, payments[i])
  }

  ghost predicate Funded<B>(s: State<B>, payments: seq<FundingPayment>, at: Time, t: State<B>) {
    && t == s.(payments := s.payments + payments, book := t.book, audit := t.audit)
    && OnlyFunded(s.book, t.book, FlowsOf(payments)) && FundingRows(s.audit, payments, at, t.audit)
    && FundingLedger(s.book.ledger, payments, t.book.ledger)
  }

  lemma FundOneLaw<B>(g: Engine<B>, s: State<B>, at: Time, rate: FundingRate, k: Digest)
    ensures match FundOne(g, s, at, rate, k)
            case Failure(e) => e == UngroundedInterval && !rate.grounded && !rate.predictedOnly && Owes(rate, s.book, k)
            case Success(t) =>
              && (Owes(rate, s.book, k) && !rate.predictedOnly ==> rate.grounded)
              && if Pays(rate, s.book, k, g.config.recordZero) then Funded(s, [Owed(rate, s.book, k)], at, t) else t == s
  {
    if k in s.book.positions {
      assert s.book.positions[k].series.digest == k;
    }
    hide Keyed;
    if Owes(rate, s.book, k) {
      PaymentIs(rate, s.book, k, g.config.recordZero);
      FundedOnce(s, Owed(rate, s.book, k), at);
      hide PaymentFor;
      hide Owed;
      hide Funded;
    }
  }

  lemma PaymentIs(rate: FundingRate, b: Book, k: Digest, recordZero: bool)
    requires Owes(rate, b, k)
    ensures PaymentFor(rate, b.positions[k], b.marks[k].price, recordZero) ==
              if rate.predictedOnly then Success(None)
              else if !rate.grounded then Failure(UngroundedInterval)
              else if Pays(rate, b, k, recordZero) then Success(Some(Owed(rate, b, k)))
              else Success(None)
  {
    OwedFlow(rate, b, k);
    hide FundingFlow;
  }

  lemma OwedFlow(rate: FundingRate, b: Book, k: Digest)
    requires Owes(rate, b, k)
    ensures Owed(rate, b, k).cashFlow == FundingFlow(b.positions[k].quantity, b.marks[k].price, rate.rate)
  {
  }

  lemma FundedOnce<B>(s: State<B>, p: FundingPayment, at: Time)
    ensures Funded(s, [p], at, Record(s.(payments := s.payments + [p], book := ApplyFunding(s.book, p)), FundingMet, at, 3, Some(p.series.digest)))
  {
    assert [p][..0] == [];
    assert FlowsOf([p]) == p.cashFlow;
    hide FlowsOf;
  }

  lemma OwedStill(rate: FundingRate, b: Book, c: Book, k: Digest, recordZero: bool)
    requires c.positions == b.positions && c.marks == b.marks
    ensures Owes(rate, c, k) <==> Owes(rate, b, k)
    ensures Pays(rate, c, k, recordZero) <==> Pays(rate, b, k, recordZero)
    ensures Owes(rate, b, k) ==> Owed(rate, c, k) == Owed(rate, b, k)
  {
  }

  lemma FlowsMore(ps: seq<FundingPayment>, p: FundingPayment)
    ensures FlowsOf(ps + [p]) == FlowsOf(ps) + p.cashFlow && FlowsOf([p]) == p.cashFlow
  {
    assert (ps + [p])[..|ps|] == ps && [p][..0] == [];
  }

  lemma RowsMore(a: seq<AuditRow>, b: seq<AuditRow>, c: seq<AuditRow>, ps: seq<FundingPayment>, p: FundingPayment, at: Time)
    requires FundingRows(a, ps, at, b) && FundingRows(b, [p], at, c)
    ensures FundingRows(a, ps + [p], at, c)
  {
    forall i | 0 <= i < |ps + [p]|
      ensures RowIs(c, |a| + i, at, 3, FundingMet, (ps + [p])[i].series.digest)
    {
      if i < |ps| {
        assert RowIs(b, |a| + i, at, 3, FundingMet, ps[i].series.digest);
      } else {
        assert RowIs(c, |b| + 0, at, 3, FundingMet, [p][0].series.digest);
      }
    }
  }

  lemma LedgerMore(a: seq<LedgerRow>, b: seq<LedgerRow>, c: seq<LedgerRow>, ps: seq<FundingPayment>, p: FundingPayment)
    requires FundingLedger(a, ps, b) && FundingLedger(b, [p], c)
    ensures FundingLedger(a, ps + [p], c)
  {
    forall i | 0 <= i < |ps + [p]|
      ensures PaidRow(c[|a| + i], |a| + i, (ps + [p])[i])
    {
      if i < |ps| {
        assert PaidRow(b[|a| + i], |a| + i, ps[i]) && c[|a| + i] == b[|a| + i];
      } else {
        assert PaidRow(c[|b| + 0], |b| + 0, [p][0]);
      }
    }
  }

  lemma BooksMore(b: Book, c: Book, d: Book, x: real, y: real)
    requires OnlyFunded(b, c, x) && OnlyFunded(c, d, y)
    ensures OnlyFunded(b, d, x + y)
  {
  }

  lemma FundedMore<B>(s: State<B>, t: State<B>, u: State<B>, ps: seq<FundingPayment>, p: FundingPayment, at: Time)
    requires Funded(s, ps, at, t) && Funded(t, [p], at, u)
    ensures Funded(s, ps + [p], at, u)
  {
    FlowsMore(ps, p);
    RowsMore(s.audit, t.audit, u.audit, ps, p, at);
    LedgerMore(s.book.ledger, t.book.ledger, u.book.ledger, ps, p);
    BooksMore(s.book, t.book, u.book, FlowsOf(ps), p.cashFlow);
    hide OnlyFunded;
    assert s.payments + (ps + [p]) == (s.payments + ps) + [p];
    hide FlowsOf;
    hide FundingRows;
    hide FundingLedger;
  }

  lemma {:induction false} FundAllLaw<B>(g: Engine<B>, s: State<B>, at: Time, rate: FundingRate, keys: seq<Digest>)
    ensures match FundAll(g, s, at, rate, keys)
            case Failure(e) => e == UngroundedInterval && !rate.grounded && !rate.predictedOnly && exists k :: k in keys && Owes(rate, s.book, k)
            case Success(t) =>
              && (!rate.predictedOnly && !rate.grounded ==> forall k :: k in keys ==> !Owes(rate, s.book, k))
              && Funded(s, PaymentsOn(rate, s.book, keys, g.config.recordZero), at, t)
    decreases |keys|
  {
    hide FundOne;
    hide Owes;
    hide Owed;
    if keys == [] {
      assert FlowsOf([]) == 0.0;
    } else {
      var n := |keys| - 1;
      var front, k := keys[..n], keys[n];
      assert keys == front + [k];
      FundAllLaw(g, s, at, rate, front);
      var r := FundAll(g, s, at, rate, front);
      if r.Success? {
        var t := r.value;
        FundOneLaw(g, t, at, rate, k);
        OwedStill(rate, s.book, t.book, k, g.config.recordZero);
        if FundAll(g, s, at, rate, keys).Success? {
          var paid := PaymentsOn(rate, s.book, front, g.config.recordZero);
          if Pays(rate, s.book, k, g.config.recordZero) {
            FundedMore(s, t, FundAll(g, s, at, rate, keys).value, paid, Owed(rate, s.book, k), at);
          } else {
            assert paid + [] == paid;
          }
        }
      }
      hide Funded;
    }
  }

  predicate Rising(keys: seq<Digest>) {
    forall i, j :: 0 <= i < j < |keys| ==> keys[i] < keys[j]
  }

  lemma {:induction false} AscendingLaw(keys: set<Digest>)
    ensures Rising(Ascending(keys)) && forall k :: k in Ascending(keys) <==> k in keys
    decreases keys
  {
    if keys != {} {
      LeastExists(keys);
      var k :| Least(k, keys) && Ascending(keys) == [k] + Ascending(keys - {k});
      AscendingLaw(keys - {k});
      var rest := Ascending(keys - {k});
      forall i | 0 <= i < |rest|
        ensures k < rest[i]
      {
        assert rest[i] in rest;
      }
    }
  }

  /** A funding event: the series held are visited in the order of their digests, and each that owes the rate pays it,
      unless the rate is only a prediction; a rate without a grounded interval raises as soon as one owes it. */
  lemma OnFundingLaw<B>(g: Engine<B>, s: State<B>, at: Time, rate: FundingRate) returns (keys: seq<Digest>)
    ensures Rising(keys) && forall k :: k in keys <==> k in s.book.positions
    ensures match OnFunding(g, s, at, rate)
            case Failure(e) => e == UngroundedInterval && !rate.grounded && !rate.predictedOnly && exists k :: Owes(rate, s.book, k)
            case Success(t) =>
              && (!rate.predictedOnly && !rate.grounded ==> forall k :: !Owes(rate, s.book, k))
              && Funded(Record(s, FundingMet, at, 3, Some(rate.series.digest)), PaymentsOn(rate, s.book, keys, g.config.recordZero), at, t)
  {
    hide Funded;
    hide FundAll;
    keys := Ascending(s.book.positions.Keys);
    AscendingLaw(s.book.positions.Keys);
    FundAllLaw(g, Record(s, FundingMet, at, 3, Some(rate.series.digest)), at, rate, keys);
    hide PaymentsOn;
    hide Ascending;
  }

  // ---------------------------------------------------------------- signals

  /** How far a price lies from its base, in hundredths of a percent of the base. */
  predicate Apart(price: real, base: real, bps: real) {
    Abs(price - base) * 10000.0 == base * bps
  }

  lemma AwayLaw(side: Side, base: real, bps: real)
    requires base > 0.0 && bps >= 0.0
    ensures Apart(Away(side, base, bps), base, bps)
    ensures if side == Buy then Away(side, base, bps) >= base else Away(side, base, bps) <= base
  {
    var offset := base * bps / 10000.0;
    assert base * bps >= 0.0;
    assert offset * 10000.0 == base * bps;
  }

  /** The prices of an order: a limit waits on the near side of the reference and a stop on the far side, each its offset
      away; a stop-limit stops like a stop, with its limit as much further on from the stop. */
  lemma OrderPricesLaw(c: Configuration, side: Side, reference: real)
    requires reference > 0.0 && c.limitOffset >= 0.0 && c.stopOffset >= 0.0 && c.stopLimitOffset >= 0.0
    ensures var (limit, stop) := OrderPrices(c, side, reference);
            match c.orderType
            case Market => limit.None? && stop.None?
            case Limit =>
              && limit.Some? && stop.None? && Apart(limit.value, reference, c.limitOffset)
              && (if side == Buy then limit.value <= reference else limit.value >= reference)
            case Stop =>
              && limit.None? && stop.Some? && Apart(stop.value, reference, c.stopOffset)
              && (if side == Buy then stop.value >= reference else stop.value <= reference)
            case StopLimit =>
              && limit.Some? && stop.Some? && Apart(stop.value, reference, c.stopOffset)
              && (if side == Buy then stop.value >= reference else stop.value <= reference)
              && (stop.value > 0.0 ==>
                    Apart(limit.value, stop.value, c.stopLimitOffset)
                    && if side == Buy then limit.value >= stop.value else limit.value <= stop.value)
  {
    AwayLaw(side, reference, c.stopOffset);
    AwayLaw(if side == Buy then Sell else Buy, reference, c.limitOffset);
    var stop := Away(side, reference, c.stopOffset);
    if stop > 0.0 {
      AwayLaw(side, stop, c.stopLimitOffset);
    }
    hide Away;
    hide Apart;
  }

  /** The quantity of a series that a book holds. */
  function HeldIn(b: Book, k: Digest): real {
    if k in b.positions then b.positions[k].quantity else 0.0
  }

  /** An intent says what its signal asks for, on the book it finds: trade the difference between the target and what is
      held, at the mark. */
  ghost predicate Answers(intent: Intent, c: Configuration, signal: Signal, at: Time, b: Book) {
    var k := signal.series.digest;
    && k in b.marks && b.marks[k].price > 0.0
    && intent.signal == signal.digest && intent.series == signal.series && intent.at == at
    && intent.current == HeldIn(b, k) && intent.reference == b.marks[k].price
    && (var sized := SizeSignal(signal.direction, HeldIn(b, k), b.marks[k].price, c.sizing); sized.Success? && intent.target == sized.value.target)
    && intent.delta == intent.target - intent.current && intent.delta != 0.0
    && intent.side == (if intent.delta > 0.0 then Buy else Sell) && intent.quantity == Abs(intent.delta)
    && intent.orderType == c.orderType && intent.timeInForce == c.timeInForce
    && (intent.limit, intent.stop) == OrderPrices(c, intent.side, intent.reference)
    && intent.mode == (if signal.series.instrument.kind == SpotPair then Spot else LinearPerpetual)
  }

  /** The view of a book that the guard decides on before an order is submitted. */
  ghost function ViewOf(b: Book, open: map<Digest, nat>): RiskView {
    RiskView(b.cash, Equity(b), b.peak, b.positions, map k | k in b.marks :: b.marks[k].price, open)
  }

  function CountOf(orders: seq<Order>, k: Digest): nat {
    if orders == [] then 0
    else CountOf(orders[..|orders| - 1], k) + (if orders[|orders| - 1].series.digest == k then 1 else 0)
  }

  /** The orders counted are the broker's active ones, series by series, and none is counted as nothing. */
  ghost predicate Counts(open: map<Digest, nat>, orders: seq<Order>) {
    forall k: Digest :: (k in open <==> CountOf(orders, k) > 0) && (k in open ==> open[k] == CountOf(orders, k))
  }

  lemma {:induction false} OpenOrdersLaw(orders: seq<Order>)
    ensures Counts(OpenOrders(orders), orders)
    decreases |orders|
  {
    if orders != [] {
      OpenOrdersLaw(orders[..|orders| - 1]);
    }
  }

  /** The intent as it was shown to the guard, with its decision recorded beside it. */
  ghost predicate Decided<B>(g: Engine<B>, u: State<B>, at: Time, intent: Intent, decision: Decision) {
    exists open: map<Digest, nat> ::
      Counts(open, g.venue.active(u.broker, None))
      && decision == g.guard(intent.(status := Created), intent.reference, PreSubmit, at, ViewOf(u.book, open), 0.0)
  }

  /** An intent and its decision are recorded. */
  function Noted<B>(u: State<B>, at: Time, intent: Intent, decision: Decision): State<B> {
    var n := |u.audit|;
    u.(intents := u.intents + [intent], decisions := u.decisions + [decision],
       audit := u.audit + [AuditRow(n + 1, at, 4, IntentMade, Some(intent.series.digest)), AuditRow(n + 2, at, 4, RiskDecided, Some(decision.series))])
  }

  /** A signal whose series' orders have been cancelled: it raises for a reason of its own, or is already met, or leaves
      one intent, which reaches the broker if and only if the guard accepts it. */
  ghost predicate Raised<B>(g: Engine<B>, u: State<B>, at: Time, signal: Signal, r: Result<State<B>, Error>) {
    var k, kind := signal.series.digest, signal.series.instrument.kind;
    if k !in u.book.marks then r == Failure(UnmarkedSignal)
    else if kind == OtherKind then r == Failure(UnsupportedInstrument)
    else if u.book.marks[k].price <= 0.0 then r == Failure(BadReference)
    else
      var target := SizeSignal(signal.direction, HeldIn(u.book, k), u.book.marks[k].price, g.config.sizing).value.target;
      if target == HeldIn(u.book, k) then r == Success(Record(u, NoActionTaken, at, 4, Some(k)))
      else
        exists intent: Intent ::
          && Answers(intent, g.config, signal, at, u.book)
          && if !ValidIntent(intent) then r == Failure(BadIntent)
             else exists decision: Decision :: Decided(g, u, at, intent, decision) && Placed(g, u, at, intent, decision, r)
  }

  /** An accepted intent goes to the broker, and a refused one nowhere. */
  ghost predicate Placed<B>(g: Engine<B>, u: State<B>, at: Time, intent: Intent, decision: Decision, r: Result<State<B>, Error>) {
    var v := Noted(u, at, intent, decision);
    && intent.status == (if decision.accepted then Submitted else Blocked)
    && if decision.accepted then Answered(v, g.venue.submit(u.broker, intent, decision), at, 4, r) else r == Success(v)
  }

  /** A signal: the event is recorded, every active order of the series is cancelled, and then it is raised. */
  lemma SignalLaw<B>(g: Engine<B>, s: State<B>, at: Time, signal: Signal)
    ensures var key := Some(signal.series.digest);
            match CancelAll(g, Record(s, SignalMet, at, 4, key), at, g.venue.active(s.broker, key))
            case Failure(e) => OnSignal(g, s, at, signal) == Failure(e)
            case Success(u) => Raised(g, u, at, signal, OnSignal(g, s, at, signal))
  {
    hide CancelAll;
    hide Raised;
    hide Submit;
    hide View;
    var key := Some(signal.series.digest);
    var cancels := CancelAll(g, Record(s, SignalMet, at, 4, key), at, g.venue.active(s.broker, key));
    if cancels.Success? {
      RaisedLaw(g, cancels.value, at, signal, OnSignal(g, s, at, signal));
    }
  }

  lemma RaisedLaw<B>(g: Engine<B>, u: State<B>, at: Time, signal: Signal, r: Result<State<B>, Error>)
    requires r == var sized := SizeFor(g, u.book, at, signal);
                  if sized.Failure? then Failure(sized.error)
                  else if sized.value.1.IsNoAction() then Success(Record(u, NoActionTaken, at, 4, Some(signal.series.digest)))
                  else
                    var intent := IntentFor(g.config, signal, at, sized.value.0, sized.value.1, sized.value.1.side.value);
                    if !ValidIntent(intent) then Failure(BadIntent)
                    else Submit(g, u, at, intent, g.guard(intent, intent.reference, PreSubmit, at,
                                                          View(u.book, OpenOrders(g.venue.active(u.broker, None))), 0.0))
    ensures Raised(g, u, at, signal, r)
  {
    hide Submit;
    hide View;
    hide OpenOrders;
    hide ValidIntent;
    SizeForLaw(g, u.book, at, signal);
    var sized := SizeFor(g, u.book, at, signal);
    if sized.Success? && !sized.value.1.IsNoAction() {
      var asked := IntentFor(g.config, signal, at, sized.value.0, sized.value.1, sized.value.1.side.value);
      hide SizeFor;
      hide IntentFor;
      if ValidIntent(asked) {
        var decision := g.guard(asked, asked.reference, PreSubmit, at, View(u.book, OpenOrders(g.venue.active(u.broker, None))), 0.0);
        var intent := asked.(status := if decision.accepted then Submitted else Blocked);
        SameTerms(asked, intent, g.config, signal, at, u.book);
        SubmitLaw(g, u, at, asked, intent, decision);
        assert Decided(g, u, at, intent, decision) && Placed(g, u, at, intent, decision, r);
      } else {
        assert Answers(asked, g.config, signal, at, u.book);
      }
    }
  }

  lemma SameTerms(asked: Intent, intent: Intent, c: Configuration, signal: Signal, at: Time, b: Book)
    requires intent == asked.(status := intent.status) && Answers(asked, c, signal, at, b)
    ensures Answers(intent, c, signal, at, b) && (ValidIntent(intent) <==> ValidIntent(asked))
  {
    hide OrderPrices;
    hide SizeSignal;
  }

  lemma SizeForLaw(g: Engine, b: KeyedBook, at: Time, signal: Signal)
    ensures var k, kind := signal.series.digest, signal.series.instrument.kind;
            match SizeFor(g, b, at, signal)
            case Failure(e) =>
              if k !in b.marks then e == UnmarkedSignal
              else if kind == OtherKind then e == UnsupportedInstrument
              else b.marks[k].price <= 0.0 && e == BadReference
            case Success((mode, sized)) =>
              && k in b.marks && kind != OtherKind && b.marks[k].price > 0.0
              && SizeSignal(signal.direction, HeldIn(b, k), b.marks[k].price, g.config.sizing) == Success(sized)
              && (sized.IsNoAction() <==> sized.target == HeldIn(b, k))
              && (!sized.IsNoAction() ==> Answers(IntentFor(g.config, signal, at, mode, sized, sized.side.value), g.config, signal, at, b))
  {
    hide OrderPrices;
    hide Sizing.Unrounded;
    hide Sizing.RoundDownAbsolute;
  }

  lemma SubmitLaw<B>(g: Engine<B>, u: State<B>, at: Time, asked: Intent, intent: Intent, decision: Decision)
    requires asked.status == Created && intent == asked.(status := if decision.accepted then Submitted else Blocked)
    requires decision == g.guard(asked, asked.reference, PreSubmit, at, View(u.book, OpenOrders(g.venue.active(u.broker, None))), 0.0)
    ensures Decided(g, u, at, intent, decision) && Placed(g, u, at, intent, decision, Submit(g, u, at, asked, decision))
  {
    hide Answered;
    hide Handle;
    var t := u.(intents := u.intents + [intent], decisions := u.decisions + [decision]);
    var v := Record(Record(t, IntentMade, at, 4, Some(intent.series.digest)), RiskDecided, at, 4, Some(decision.series));
    assert v.audit == Noted(u, at, intent, decision).audit;
    var orders := g.venue.active(u.broker, None);
    OpenOrdersLaw(orders);
    assert View(u.book, OpenOrders(orders)) == ViewOf(u.book, OpenOrders(orders));
    assert intent.(status := Created) == asked;
    hide OpenOrders;
    if decision.accepted {
      HandleLaw(v, g.venue.submit(u.broker, intent, decision), at, 4);
    }
  }

  // ---------------------------------------------------------------- the end of a timestamp, and of the run

  /** A position at its price; without one it counts as nothing. */
  function SizeAt(p: PositionState, price: Option<real>): real {
    if price.None? then 0.0 else p.quantity * price.value
  }

  function ProfitAt(p: PositionState, price: Option<real>): real {
    if price.None? || p.average.None? then 0.0 else p.quantity * (price.value - p.average.value)
  }

  function PriceIn(b: Book, k: Digest): Option<real> {
    if k in b.marks then Some(b.marks[k].price) else None
  }

  function SizesAtMarks(b: Book): map<nat, real> {
    map k | k in b.positions :: SizeAt(b.positions[k], PriceIn(b, k))
  }

  function GrossSizesAtMarks(b: Book): map<nat, real> {
    map k | k in b.positions :: Abs(SizeAt(b.positions[k], PriceIn(b, k)))
  }

  function ProfitsAtMarks(b: Book): map<nat, real> {
    map k | k in b.positions :: ProfitAt(b.positions[k], PriceIn(b, k))
  }

  /** An account as it is drawn up at an instant. */
  ghost predicate Drawn(b: Book, at: Time, a: AccountSnapshot) {
    && a.at == at && a.cash == b.cash && a.equity == Equity(b) && a.fees == b.totalFees && a.funding == b.totalFunding
    && a.gross == Total(GrossSizesAtMarks(b))
    && a.net == Total(SizesAtMarks(b))
    && a.realized == Total(map k | k in b.positions :: b.positions[k].realized)
    && a.unrealized == Total(ProfitsAtMarks(b))
    && a.staleMarks == |set k | k in b.positions && (k in b.marks ==> b.marks[k].at < at)|
  }

  /** At the end of a timestamp the account is drawn up, the peak raised to its equity, and a point added to the curve;
      it raises if and only if the point's constructor does. */
  lemma CloseGroupLaw<B>(s: State<B>, at: Time)
    ensures match CloseGroup(s, at)
            case Failure(e) => exists a: AccountSnapshot :: Drawn(s.book, at, a) && Metrics.PointAfter(s.book.accounts + [a]) == Failure(e)
            case Success(t) =>
              exists a: AccountSnapshot ::
                && Drawn(s.book, at, a) && t == s.(book := t.book, audit := t.audit, curve := t.curve)
                && t.book == s.book.(accounts := s.book.accounts + [a], peak := if s.book.peak < a.equity then a.equity else s.book.peak)
                && t.audit == s.audit + [AuditRow(|s.audit| + 1, at, 6, AccountShown, None)]
                && |t.curve| == |s.curve| + 1 && s.curve <= t.curve
                && Metrics.PointAfter(s.book.accounts + [a]) == Success(t.curve[|s.curve|])
  {
    var a := SnapshotOfAccount(s.book, at, |StaleKeys(s.book.positions, s.book.marks, at)|);
    AccountLaw(s.book, at);
    assert a.equity == Equity(s.book);
    hide *;
    ClosedWith(s, at, a);
    assert Drawn(s.book, at, a);
  }

  lemma ClosedWith<B>(s: State<B>, at: Time, a: AccountSnapshot)
    requires a == SnapshotOfAccount(s.book, at, |StaleKeys(s.book.positions, s.book.marks, at)|) && a.equity == Equity(s.book)
    ensures match CloseGroup(s, at)
            case Failure(e) => Metrics.PointAfter(s.book.accounts + [a]) == Failure(e)
            case Success(t) =>
              && t == s.(book := t.book, audit := t.audit, curve := t.curve)
              && t.book == s.book.(accounts := s.book.accounts + [a], peak := if s.book.peak < a.equity then a.equity else s.book.peak)
              && t.audit == s.audit + [AuditRow(|s.audit| + 1, at, 6, AccountShown, None)]
              && |t.curve| == |s.curve| + 1 && s.curve <= t.curve
              && Metrics.PointAfter(s.book.accounts + [a]) == Success(t.curve[|s.curve|])
  {
    hide Metrics.PointAfter;
    hide SnapshotOfAccount;
    hide StaleKeys;
    hide Keyed;
  }

  lemma AccountLaw(b: KeyedBook, at: Time)
    ensures Drawn(b, at, SnapshotOfAccount(b, at, |StaleKeys(b.positions, b.marks, at)|))
  {
    SameParts(b);
    SameStale(b, at);
    hide Total;
    hide Equity;
    hide GrossExposures;
    hide GrossSizesAtMarks;
    hide Exposures;
    hide SizesAtMarks;
    hide UnrealizedParts;
    hide ProfitsAtMarks;
    hide Keyed;
    hide StaleKeys;
  }

  lemma SamePart(p: PositionState, mark: Option<Mark>)
    requires p.quantity == 0.0 <==> p.average.None?
    ensures Exposure(p, mark) == SizeAt(p, PriceOf(mark)) && Positions.UnrealizedPnl(p, PriceOf(mark)) == ProfitAt(p, PriceOf(mark))
  {
  }

  lemma SameParts(b: KeyedBook)
    ensures Exposures(b.positions, b.marks) == SizesAtMarks(b) && GrossExposures(b.positions, b.marks) == GrossSizesAtMarks(b)
    ensures UnrealizedParts(b.positions, b.marks) == ProfitsAtMarks(b)
  {
    hide Exposure;
    hide SizeAt;
    hide ProfitAt;
    hide Positions.UnrealizedPnl;
    hide Abs;
    forall k | k in b.positions
      ensures Exposure(b.positions[k], MarkOf(b.marks, k)) == SizeAt(b.positions[k], PriceIn(b, k))
      ensures Positions.UnrealizedPnl(b.positions[k], PriceOf(MarkOf(b.marks, k))) == ProfitAt(b.positions[k], PriceIn(b, k))
    {
      assert ValidPosition(b.positions[k]);
      SamePart(b.positions[k], MarkOf(b.marks, k));
    }
  }

  lemma SameStale(b: Book, at: Time)
    ensures StaleKeys(b.positions, b.marks, at) == set k | k in b.positions && (k in b.marks ==> b.marks[k].at < at)
  {
  }

  /** When the events are over the broker is told to expire what is left. */
  lemma FinishLaw<B>(g: Engine<B>, s: State<B>, at: Time)
    ensures Answered(s, g.venue.expire(s.broker, at), at, 7, Finish(g, s, at))
  {
    HandleLaw(s, g.venue.expire(s.broker, at), at, 7);
    hide Answered;
    hide Handle;
  }

  /** A completed run: its events are played, the last timestamp is closed, and the broker expires its orders. */
  lemma RunIs<B>(g: Engine<B>, events: seq<Event>) returns (played: State<B>, closed: State<B>)
    requires events != [] && Run(g, events).Success?
    ensures var at := events[|events| - 1].at;
            && Play(g, events[0].at, events) == Success(played) && CloseGroup(played, at) == Success(closed)
            && Finish(g, closed, at) == Success(Run(g, events).value.0)
            && PlayThrough(g, events[0].at, events) == Success(closed)
            && Metrics.Summarize(Run(g, events).value.0.book, Run(g, events).value.0.curve, Run(g, events).value.0.fills) == Success(Run(g, events).value.1)
  {
    hide Play;
    hide CloseGroup;
    hide Finish;
    hide Metrics.Summarize;
    played := Play(g, events[0].at, events).value;
    closed := CloseGroup(played, events[|events| - 1].at).value;
  }
}
