/** Cash, positions, marks and equity (execution/accounting.py).  `Book` is the abstract value of a
    `Portfolio`; every method of the class is proved against a function on books, and the laws of the
    accounting are proved about those functions. */
module Accounting {
  import opened Results
  import opened Models
  import opened MapSums
  import opened Positions

  datatype Book = Book(initialCash: real, currency: string, cash: real, positions: map<Digest, PositionState>,
                       marks: map<Digest, Mark>, ledger: seq<LedgerRow>, snapshots: seq<PositionSnapshot>,
                       accounts: seq<AccountSnapshot>, applied: set<Uuid>, totalFees: real, totalFunding: real,
                       peak: real)

  /** What a call leaves behind, and the exception it raised, if any. */
  datatype Outcome = Outcome(book: Book, raised: Option<Error>)

  type Held = map<Digest, PositionState>
  type Marks = map<Digest, Mark>

  function MarkOf(marks: Marks, key: Digest): Option<Mark> {
    if key in marks then Some(marks[key]) else None
  }

  function PriceOf(mark: Option<Mark>): Option<real> {
    if mark.Some? then Some(mark.value.price) else None
  }

  // ---------------------------------------------------------------- operations on books

  function OpenBook(initialCash: real, currency: string, at: Time): Book {
    Post(Book(initialCash, currency, 0.0, map[], map[], [], [], [], {}, 0.0, 0.0, initialCash),
         InitialCash, initialCash, at, None, None)
  }

  function Post(b: Book, entry: EntryType, amount: real, at: Time, series: Option<Digest>, fillId: Option<Uuid>): Book {
    b.(cash := b.cash + amount,
       ledger := b.ledger + [LedgerRow(at, entry, amount, b.cash + amount, |b.ledger|, series, fillId)])
  }

  function Snapshot(b: Book, p: PositionState, at: Time, kind: SnapshotKind, sequence: nat, fillId: Option<Uuid>): PositionSnapshot {
    var mark := MarkOf(b.marks, p.series.digest);
    PositionSnapshot(p.series, at, p.quantity, p.average, PriceOf(mark), p.realized, UnrealizedPnl(p, PriceOf(mark)),
                     if mark.Some? then Some(at - mark.value.at) else None, kind,
                     if mark.Some? then Some(mark.value.source) else None, sequence, fillId)
  }

  /** A snapshot older than the mark it would show is refused by the snapshot's constructor. */
  function TakeSnapshot(b: Book, p: PositionState, at: Time, kind: SnapshotKind, sequence: nat, fillId: Option<Uuid>): Outcome {
    var mark := MarkOf(b.marks, p.series.digest);
    if mark.Some? && at < mark.value.at then Outcome(b, Some(NegativeMarkAge))
    else Outcome(b.(snapshots := b.snapshots + [Snapshot(b, p, at, kind, sequence, fillId)]), None)
  }

  function PositionFor(b: Book, series: Series, mode: Mode, at: Time): PositionState {
    if series.digest in b.positions then b.positions[series.digest] else EmptyPosition(series, mode, at)
  }

  predicate Keyed(ps: Held) {
    forall k :: k in ps ==> ps[k].series.digest == k && ValidPosition(ps[k])
  }

  function SpotCash(fill: Fill): real {
    var notional := fill.quantity * fill.price;
    if fill.side == Buy then -notional else notional
  }

  /** Spot moves the notional, a perpetual only what it realizes. */
  function PostTrade(b: Book, fill: Fill, t: Transition): Book {
    if fill.mode == Spot then
      Post(b, SpotNotional, SpotCash(fill), fill.filledAt, Some(fill.series.digest), Some(fill.id))
    else if t.realizedDelta != 0.0 then
      Post(b, RealizedPnl, t.realizedDelta, fill.filledAt, Some(fill.series.digest), Some(fill.id))
    else b
  }

  function PostFee(b: Book, fill: Fill): Book {
    var charged := if fill.fee != 0.0 then Post(b, Fee, -fill.fee, fill.filledAt, Some(fill.series.digest), Some(fill.id)) else b;
    charged.(totalFees := charged.totalFees + fill.fee)
  }

  function PostFill(b: Book, fill: Fill, t: Transition): Book {
    var c := PostFee(PostTrade(b, fill, t), fill);
    c.(positions := c.positions[fill.series.digest := t.state], applied := c.applied + {fill.id})
  }

  function ApplyFill(b: Book, fill: Fill, sequence: nat): Outcome
    requires Keyed(b.positions) && ValidFill(fill)
  {
    if fill.id in b.applied then Outcome(b, Some(DuplicateFill))
    else if fill.feeCurrency != b.currency then Outcome(b, Some(FeeCurrencyMismatch))
    else
      var t := ApplyFillToPosition(PositionFor(b, fill.series, fill.mode, fill.filledAt), fill);
      if t.Failure? then Outcome(b, Some(t.error))
      else TakeSnapshot(PostFill(b, fill, t.value), t.value.state, fill.filledAt, FillSnapshot, sequence, Some(fill.id))
  }

  function SetMark(b: Book, series: Series, price: real, at: Time, source: MarkSource, sequence: nat): Outcome {
    if price <= 0.0 then Outcome(b, Some(BadMark))
    else
      var marked := b.(marks := b.marks[series.digest := Mark(price, at, source)]);
      if series.digest !in b.positions then Outcome(marked, None)
      else TakeSnapshot(marked, b.positions[series.digest], at,
                        if source == BarOpen then OpenMarkSnapshot else CloseMarkSnapshot, sequence, None)
  }

  function ApplyFunding(b: Book, payment: FundingPayment): Book {
    var paid := b.(totalFunding := b.totalFunding + payment.cashFlow);
    Post(paid, Funding, payment.cashFlow, payment.at, Some(payment.series.digest), None)
  }

  // ---------------------------------------------------------------- valuation

  function Exposure(p: PositionState, mark: Option<Mark>): real {
    if mark.None? then 0.0 else p.quantity * mark.value.price
  }

  /** What one position adds to equity: its market value on Spot, its open profit on a perpetual. */
  function EquityPart(p: PositionState, mark: Option<Mark>): real {
    if mark.None? then 0.0
    else if p.mode == Spot then Exposure(p, mark)
    else UnrealizedPnl(p, PriceOf(mark))
  }

  ghost function EquityParts(ps: Held, ms: Marks): map<nat, real> {
    map k | k in ps :: EquityPart(ps[k], MarkOf(ms, k))
  }

  ghost function Exposures(ps: Held, ms: Marks): map<nat, real> {
    map k | k in ps :: Exposure(ps[k], MarkOf(ms, k))
  }

  ghost function GrossExposures(ps: Held, ms: Marks): map<nat, real> {
    map k | k in ps :: Abs(Exposure(ps[k], MarkOf(ms, k)))
  }

  ghost function RealizedParts(ps: Held): map<nat, real> {
    map k | k in ps :: ps[k].realized
  }

  ghost function UnrealizedParts(ps: Held, ms: Marks): map<nat, real> {
    map k | k in ps :: UnrealizedPnl(ps[k], PriceOf(MarkOf(ms, k)))
  }

  ghost function Equity(b: Book): real {
    b.cash + Total(EquityParts(b.positions, b.marks))
  }

  ghost function SnapshotOfAccount(b: Book, at: Time, stale: nat): AccountSnapshot {
    AccountSnapshot(at, b.cash, Equity(b), Total(GrossExposures(b.positions, b.marks)),
                    Total(Exposures(b.positions, b.marks)), Total(RealizedParts(b.positions)),
                    Total(UnrealizedParts(b.positions, b.marks)), b.totalFees, b.totalFunding, stale)
  }

  /** The positions with no mark, or one older than `at`. */
  function StaleKeys(ps: Held, ms: Marks, at: Time): set<Digest> {
    set k | k in ps && (k !in ms || ms[k].at < at)
  }

  ghost function SnapshotAccount(b: Book, at: Time): Book {
    b.(accounts := b.accounts + [SnapshotOfAccount(b, at, |StaleKeys(b.positions, b.marks, at)|)], peak := Max(b.peak, Equity(b)))
  }

  // ---------------------------------------------------------------- invariant

  function Amounts(rows: seq<LedgerRow>): real {
    if rows == [] then 0.0 else Amounts(rows[..|rows| - 1]) + rows[|rows| - 1].amount
  }

  function AmountsOf(rows: seq<LedgerRow>, entry: EntryType): real {
    if rows == [] then 0.0
    else
      var last := rows[|rows| - 1];
      AmountsOf(rows[..|rows| - 1], entry) + (if last.entry == entry then last.amount else 0.0)
  }

  /** The last snapshot of each series, as the metrics collect them. */
  function Latest(snaps: seq<PositionSnapshot>): map<Digest, PositionSnapshot> {
    if snaps == [] then map[]
    else
      var last := snaps[|snaps| - 1];
      Latest(snaps[..|snaps| - 1])[last.series.digest := last]
  }

  function CostPart(p: PositionState): real {
    if p.mode == Spot then p.quantity * AverageOrZero(p.average) else 0.0
  }

  ghost function CostParts(ps: Held): map<nat, real> {
    map k | k in ps :: CostPart(ps[k])
  }

  predicate Numbered(rows: seq<LedgerRow>) {
    forall i :: 0 <= i < |rows| ==> rows[i].sequence == i && rows[i].balanceAfter == Amounts(rows[..i + 1])
  }

  predicate Balanced(rows: seq<LedgerRow>, cash: real) {
    Numbered(rows) && cash == Amounts(rows)
  }

  predicate LedgerLaw(rows: seq<LedgerRow>, cash: real, fees: real, funding: real) {
    Balanced(rows, cash) && fees == -AmountsOf(rows, Fee) && funding == AmountsOf(rows, Funding)
  }

  /** Apart from funding and fees, cash differs from the start by what was realized and what Spot holdings cost. */
  ghost predicate CashLaw(initial: real, cash: real, ps: Held, funding: real, fees: real) {
    cash == initial + Total(RealizedParts(ps)) - Total(CostParts(ps)) + funding - fees
  }

  predicate Shows(snap: PositionSnapshot, p: PositionState, mark: Option<Mark>) {
    && snap.quantity == p.quantity && snap.realized == p.realized
    && snap.unrealized == UnrealizedPnl(p, PriceOf(mark))
  }

  /** The last snapshot of a series shows its present position at its present mark. */
  predicate SnapshotLaw(snaps: seq<PositionSnapshot>, ps: Held, ms: Marks) {
    && Latest(snaps).Keys == ps.Keys
    && forall k :: k in ps ==> Shows(Latest(snaps)[k], ps[k], MarkOf(ms, k))
  }

  predicate Applied(ps: Held, applied: set<Uuid>) {
    forall k :: k in ps ==> forall id :: id in ps[k].sourceFills ==> id in applied
  }

  predicate PositiveMarks(ms: Marks) {
    forall k :: k in ms ==> ms[k].price > 0.0
  }

  ghost predicate Good(b: Book) {
    && Keyed(b.positions) && PositiveMarks(b.marks) && Applied(b.positions, b.applied)
    && LedgerLaw(b.ledger, b.cash, b.totalFees, b.totalFunding)
    && CashLaw(b.initialCash, b.cash, b.positions, b.totalFunding, b.totalFees)
    && SnapshotLaw(b.snapshots, b.positions, b.marks)
  }

  lemma OpenBookIsGood(initialCash: real, currency: string, at: Time)
    ensures Good(OpenBook(initialCash, currency, at))
    ensures Equity(OpenBook(initialCash, currency, at)) == initialCash
    ensures OpenBook(initialCash, currency, at) ==
              Book(initialCash, currency, initialCash, map[], map[], [LedgerRow(at, InitialCash, initialCash, initialCash, 0, None, None)], [], [], {},
                   0.0, 0.0, initialCash)
  {
    OpenedLedger(initialCash, currency, at);
    hide Total;
    hide LedgerLaw;
    NothingHeld();
    hide EquityParts;
    hide CostParts;
    hide RealizedParts;
  }

  lemma OpenedLedger(initialCash: real, currency: string, at: Time)
    ensures var b := OpenBook(initialCash, currency, at); LedgerLaw(b.ledger, b.cash, b.totalFees, b.totalFunding)
  {
    var empty := Book(initialCash, currency, 0.0, map[], map[], [], [], [], {}, 0.0, 0.0, initialCash);
    PostLaw(empty, InitialCash, initialCash, at, None, None);
    hide Balanced;
  }

  lemma NothingHeld()
    ensures Total(RealizedParts(map[])) == Total(CostParts(map[])) == Total(EquityParts(map[], map[])) == 0.0
  {
    assert RealizedParts(map[]) == map[] == CostParts(map[]) == EquityParts(map[], map[]);
  }

  /** Posting keeps the ledger numbered and balanced, and moves the total of its own entry type only. */
  lemma PostLaw(b: Book, entry: EntryType, amount: real, at: Time, series: Option<Digest>, fillId: Option<Uuid>)
    requires Balanced(b.ledger, b.cash)
    ensures var c := Post(b, entry, amount, at, series, fillId);
            && Balanced(c.ledger, c.cash)
            && AmountsOf(c.ledger, entry) == AmountsOf(b.ledger, entry) + amount
            && forall e :: e != entry ==> AmountsOf(c.ledger, e) == AmountsOf(b.ledger, e)
  {
    var c := Post(b, entry, amount, at, series, fillId);
    assert c.ledger[..|b.ledger|] == b.ledger;
    forall i | 0 <= i < |c.ledger|
      ensures c.ledger[i].sequence == i && c.ledger[i].balanceAfter == Amounts(c.ledger[..i + 1])
    {
      if i < |b.ledger| {
        assert c.ledger[..i + 1] == b.ledger[..i + 1];
      } else {
        assert c.ledger[..i + 1] == c.ledger;
      }
    }
  }

  function CashMove(fill: Fill, t: Transition): real {
    if fill.mode == Spot then -(Signed(fill) * fill.price) else t.realizedDelta
  }

  predicate SameRest(b: Book, c: Book) {
    c == b.(cash := c.cash, ledger := c.ledger, totalFees := c.totalFees)
  }

  /** A row that is neither a fee nor funding. */
  lemma PostOther(b: Book, entry: EntryType, amount: real, at: Time, series: Option<Digest>, fillId: Option<Uuid>)
    requires LedgerLaw(b.ledger, b.cash, b.totalFees, b.totalFunding) && entry != Fee && entry != Funding
    ensures var c := Post(b, entry, amount, at, series, fillId);
            && LedgerLaw(c.ledger, c.cash, c.totalFees, c.totalFunding)
            && SameRest(b, c) && c.cash == b.cash + amount && c.totalFees == b.totalFees
  {
    hide Balanced;
    hide AmountsOf;
    PostLaw(b, entry, amount, at, series, fillId);
  }

  lemma PostTradeLaw(b: Book, fill: Fill, t: Transition)
    requires LedgerLaw(b.ledger, b.cash, b.totalFees, b.totalFunding)
    ensures var c := PostTrade(b, fill, t);
            && LedgerLaw(c.ledger, c.cash, c.totalFees, c.totalFunding)
            && SameRest(b, c) && c.cash == b.cash + CashMove(fill, t) && c.totalFees == b.totalFees
  {
    hide LedgerLaw;
    hide Post;
    var key, id := Some(fill.series.digest), Some(fill.id);
    if fill.mode == Spot {
      SpotCashLaw(fill);
      hide SpotCash;
      hide Signed;
      PostOther(b, SpotNotional, SpotCash(fill), fill.filledAt, key, id);
    } else if t.realizedDelta != 0.0 {
      PostOther(b, RealizedPnl, t.realizedDelta, fill.filledAt, key, id);
    }
  }

  lemma SpotCashLaw(fill: Fill)
    ensures SpotCash(fill) == -(Signed(fill) * fill.price)
  {
  }

  lemma PostFeeLaw(b: Book, fill: Fill)
    requires LedgerLaw(b.ledger, b.cash, b.totalFees, b.totalFunding)
    ensures var c := PostFee(b, fill);
            && LedgerLaw(c.ledger, c.cash, c.totalFees, c.totalFunding)
            && SameRest(b, c) && c.cash == b.cash - fill.fee && c.totalFees == b.totalFees + fill.fee
  {
    hide Balanced;
    PostLaw(b, Fee, -fill.fee, fill.filledAt, Some(fill.series.digest), Some(fill.id));
  }

  lemma PostFillLaw(b: Book, fill: Fill, t: Transition)
    requires LedgerLaw(b.ledger, b.cash, b.totalFees, b.totalFunding)
    ensures var c := PostFill(b, fill, t);
            && LedgerLaw(c.ledger, c.cash, c.totalFees, c.totalFunding)
            && c.cash == b.cash + CashMove(fill, t) - fill.fee
            && c.totalFees == b.totalFees + fill.fee && c.totalFunding == b.totalFunding
            && c.positions == b.positions[fill.series.digest := t.state]
            && c.marks == b.marks && c.snapshots == b.snapshots && c.initialCash == b.initialCash
            && c.applied == b.applied + {fill.id}
  {
    hide LedgerLaw;
    hide PostTrade;
    hide PostFee;
    PostTradeLaw(b, fill, t);
    PostFeeLaw(PostTrade(b, fill, t), fill);
  }

  /** The part of a position's cost that a fill moves is exactly what it does not realize. */
  lemma CostLaw(p: PositionState, fill: Fill, t: Transition)
    requires ValidPosition(p) && ValidFill(fill) && ApplyFillToPosition(p, fill) == Success(t)
    ensures CashMove(fill, t) == t.realizedDelta - (CostPart(t.state) - CostPart(p))
  {
    TransitionWorth(p, fill, t, 0.0);
    hide ApplyFillToPosition;
    if fill.mode == Spot {
      CostFromWorth(p);
      CostFromWorth(t.state);
      NoMark(fill);
      hide CostPart;
      hide Gain;
      hide Worth;
      hide ValidPosition;
      hide Signed;
    }
  }

  /** What a fill gains against a mark. */
  function Gain(fill: Fill, mark: real): real {
    Signed(fill) * (mark - fill.price)
  }

  /** The worth law, for a fill of a position. */
  lemma TransitionWorth(p: PositionState, fill: Fill, t: Transition, mark: real)
    requires ValidPosition(p) && ValidFill(fill) && ApplyFillToPosition(p, fill) == Success(t)
    ensures ValidPosition(t.state) && t.state.mode == p.mode == fill.mode
    ensures t.state.realized == p.realized + t.realizedDelta && t.state.quantity == p.quantity + Signed(fill)
    ensures Worth(HoldingOf(t.state), mark) == Worth(HoldingOf(p), mark) + Gain(fill, mark)
  {
    hide Move;
    hide Shape;
    hide Worth;
    ApplyFillLaw(p, fill);
    WorthLaw(p.mode, HoldingOf(p), Signed(fill), fill.price, Moved(HoldingOf(t.state), t.realizedDelta, t.closed, t.reversed), mark);
  }

  lemma CostFromWorth(p: PositionState)
    requires ValidPosition(p) && p.mode == Spot
    ensures CostPart(p) == p.realized - Worth(HoldingOf(p), 0.0)
  {
  }

  lemma NoMark(fill: Fill)
    ensures Gain(fill, 0.0) == -(Signed(fill) * fill.price)
  {
  }

  /** A snapshot taken after one position or one mark changed restores the snapshot law. */
  lemma SnapshotKeeps(b: Book, ps: Held, ms: Marks, p: PositionState, at: Time, kind: SnapshotKind, sequence: nat, fillId: Option<Uuid>)
    requires SnapshotLaw(b.snapshots, ps, ms)
    requires b.positions == ps[p.series.digest := p]
    requires forall k :: k in ps && k != p.series.digest ==> MarkOf(b.marks, k) == MarkOf(ms, k)
    requires TakeSnapshot(b, p, at, kind, sequence, fillId).raised.None?
    ensures SnapshotLaw(TakeSnapshot(b, p, at, kind, sequence, fillId).book.snapshots, b.positions, b.marks)
  {
    var snap := Snapshot(b, p, at, kind, sequence, fillId);
    LatestAppend(b.snapshots, snap);
    SnapshotShows(b, p, at, kind, sequence, fillId);
    hide Latest;
    hide Shows;
    hide Snapshot;
    var now := Latest(b.snapshots + [snap]);
    forall k | k in b.positions
      ensures Shows(now[k], b.positions[k], MarkOf(b.marks, k))
    {
      if k != p.series.digest {
        assert k in ps && now[k] == Latest(b.snapshots)[k];
      }
    }
  }

  lemma LatestAppend(snaps: seq<PositionSnapshot>, snap: PositionSnapshot)
    ensures Latest(snaps + [snap]) == Latest(snaps)[snap.series.digest := snap]
  {
    assert (snaps + [snap])[..|snaps|] == snaps;
  }

  lemma SnapshotShows(b: Book, p: PositionState, at: Time, kind: SnapshotKind, sequence: nat, fillId: Option<Uuid>)
    ensures var snap := Snapshot(b, p, at, kind, sequence, fillId);
            snap.series == p.series && Shows(snap, p, MarkOf(b.marks, p.series.digest))
  {
    hide UnrealizedPnl;
  }

  lemma PositionForLaw(b: Book, series: Series, mode: Mode, at: Time)
    requires Keyed(b.positions)
    ensures var p := PositionFor(b, series, mode, at);
            ValidPosition(p) && p.series.digest == series.digest
  {
  }

  lemma KeyedUpdate(ps: Held, applied: set<Uuid>, p: PositionState, q: PositionState, id: Uuid)
    requires Keyed(ps) && Applied(ps, applied) && ValidPosition(q)
    requires p.series.digest in ps ==> p == ps[p.series.digest]
    requires p.series.digest !in ps ==> p.sourceFills == []
    requires q.series.digest == p.series.digest && q.sourceFills == p.sourceFills + [id]
    ensures Keyed(ps[p.series.digest := q]) && Applied(ps[p.series.digest := q], applied + {id})
  {
  }

  lemma PartsUpdate(ps: Held, ms: Marks, key: Digest, p: PositionState)
    ensures RealizedParts(ps[key := p]) == RealizedParts(ps)[key := p.realized]
    ensures CostParts(ps[key := p]) == CostParts(ps)[key := CostPart(p)]
    ensures EquityParts(ps[key := p], ms) == EquityParts(ps, ms)[key := EquityPart(p, MarkOf(ms, key))]
  {
  }

  lemma CashLawKept(b: Book, fill: Fill, t: Transition)
    requires var p := PositionFor(b, fill.series, fill.mode, fill.filledAt);
             ValidPosition(p) && ValidFill(fill) && ApplyFillToPosition(p, fill) == Success(t)
    requires CashLaw(b.initialCash, b.cash, b.positions, b.totalFunding, b.totalFees)
    ensures CashLaw(b.initialCash, b.cash + CashMove(fill, t) - fill.fee, b.positions[fill.series.digest := t.state],
                    b.totalFunding, b.totalFees + fill.fee)
  {
    hide ApplyFillToPosition;
    hide Move;
    hide Shape;
    hide Total;
    var key, p := fill.series.digest, PositionFor(b, fill.series, fill.mode, fill.filledAt);
    ApplyFillLaw(p, fill);
    CostLaw(p, fill, t);
    PartsUpdate(b.positions, b.marks, key, t.state);
    TotalUpdate(RealizedParts(b.positions), key, t.state.realized);
    TotalUpdate(CostParts(b.positions), key, CostPart(t.state));
  }

  /** Every accepted fill keeps the invariant. */
  lemma ApplyFillKeepsGood(b: Book, fill: Fill, sequence: nat)
    requires Good(b) && ValidFill(fill) && ApplyFill(b, fill, sequence).raised.None?
    ensures Good(ApplyFill(b, fill, sequence).book)
  {
    hide Shape;
    hide ApplyFillToPosition;
    hide Keyed;
    hide Applied;
    hide LedgerLaw;
    hide CashLaw;
    hide SnapshotLaw;
    hide PostFill;
    PositionForLaw(b, fill.series, fill.mode, fill.filledAt);
    var p := PositionFor(b, fill.series, fill.mode, fill.filledAt);
    var t := ApplyFillToPosition(p, fill).value;
    ApplyFillLaw(p, fill);
    PostFillLaw(b, fill, t);
    CashLawKept(b, fill, t);
    KeyedUpdate(b.positions, b.applied, p, t.state, fill.id);
    SnapshotKeeps(PostFill(b, fill, t), b.positions, b.marks, t.state, fill.filledAt, FillSnapshot, sequence, Some(fill.id));
  }

  lemma SetMarkKeepsGood(b: Book, series: Series, price: real, at: Time, source: MarkSource, sequence: nat)
    requires Good(b) && SetMark(b, series, price, at, source, sequence).raised.None?
    ensures Good(SetMark(b, series, price, at, source, sequence).book)
  {
    hide LedgerLaw;
    hide CashLaw;
    hide Latest;
    var marked := b.(marks := b.marks[series.digest := Mark(price, at, source)]);
    if series.digest in b.positions {
      var p := b.positions[series.digest];
      assert b.positions[series.digest := p] == b.positions;
      SnapshotKeeps(marked, b.positions, b.marks, p, at, if source == BarOpen then OpenMarkSnapshot else CloseMarkSnapshot, sequence, None);
    }
  }

  lemma ApplyFundingKeepsGood(b: Book, payment: FundingPayment)
    requires Good(b)
    ensures Good(ApplyFunding(b, payment))
    ensures Equity(ApplyFunding(b, payment)) == Equity(b) + payment.cashFlow
  {
    hide Balanced;
    hide AmountsOf;
    hide SnapshotLaw;
    hide Total;
    PostLaw(b.(totalFunding := b.totalFunding + payment.cashFlow), Funding, payment.cashFlow, payment.at, Some(payment.series.digest), None);
  }

  lemma SnapshotAccountKeepsGood(b: Book, at: Time)
    requires Good(b)
    ensures Good(SnapshotAccount(b, at)) && Equity(SnapshotAccount(b, at)) == Equity(b)
  {
  }

  // ---------------------------------------------------------------- equity

  /** With a mark present, a fill on either account, on any branch, changes equity by the traded quantity's
      distance from the mark, less the fee. */
  lemma FillEquityLaw(b: Book, fill: Fill, sequence: nat)
    requires Good(b) && ValidFill(fill) && ApplyFill(b, fill, sequence).raised.None?
    requires fill.series.digest in b.marks
    ensures Equity(ApplyFill(b, fill, sequence).book)
         == Equity(b) + Gain(fill, b.marks[fill.series.digest].price) - fill.fee
  {
    hide Gain;
    hide CashMove;
    hide Shape;
    hide Total;
    hide ApplyFillToPosition;
    hide Keyed;
    hide Applied;
    hide PositiveMarks;
    hide LedgerLaw;
    hide CashLaw;
    hide SnapshotLaw;
    hide PostFill;
    hide EquityPart;
    PositionForLaw(b, fill.series, fill.mode, fill.filledAt);
    var key, p := fill.series.digest, PositionFor(b, fill.series, fill.mode, fill.filledAt);
    var t, mark := ApplyFillToPosition(p, fill).value, b.marks[key];
    PostFillLaw(b, fill, t);
    PartsUpdate(b.positions, b.marks, key, t.state);
    TotalUpdate(EquityParts(b.positions, b.marks), key, EquityPart(t.state, Some(mark)));
    EquityPartLaw(p, fill, t, mark);
    if key !in b.positions {
      FlatPart(p, Some(mark));
    }
  }

  lemma FlatPart(p: PositionState, mark: Option<Mark>)
    requires p.quantity == 0.0
    ensures EquityPart(p, mark) == 0.0
  {
  }

  lemma EquityPartLaw(p: PositionState, fill: Fill, t: Transition, mark: Mark)
    requires ValidPosition(p) && ValidFill(fill) && ApplyFillToPosition(p, fill) == Success(t)
    ensures EquityPart(t.state, Some(mark)) + CashMove(fill, t) == EquityPart(p, Some(mark)) + Gain(fill, mark.price)
  {
    TransitionWorth(p, fill, t, mark.price);
    if p.mode == Spot {
      SpotPart(p, t.state, fill, t, mark);
    } else {
      PerpetualPart(p, mark);
      PerpetualPart(t.state, mark);
    }
    hide EquityPart;
    hide Worth;
    hide Gain;
    hide ValidPosition;
    hide ApplyFillToPosition;
    hide Signed;
  }

  /** A marked perpetual adds to equity its worth beyond what is realized. */
  lemma PerpetualPart(p: PositionState, mark: Mark)
    requires ValidPosition(p) && p.mode == LinearPerpetual
    ensures EquityPart(p, Some(mark)) == Worth(HoldingOf(p), mark.price) - p.realized
  {
  }

  lemma SpotPart(p: PositionState, q: PositionState, fill: Fill, t: Transition, mark: Mark)
    requires p.mode == q.mode == fill.mode == Spot && q.quantity == p.quantity + Signed(fill)
    ensures EquityPart(q, Some(mark)) + CashMove(fill, t) == EquityPart(p, Some(mark)) + Gain(fill, mark.price)
  {
    var held, signed, bought, sold := p.quantity * mark.price, Signed(fill), Signed(fill) * mark.price, Signed(fill) * fill.price;
    hide Signed;
    Distribute(p.quantity, signed, mark.price);
    assert Gain(fill, mark.price) == bought - sold;
  }

  /** What a position gains when its mark moves. */
  function MarkGain(p: PositionState, before: Mark, after: Mark): real {
    p.quantity * (after.price - before.price)
  }

  /** A new mark moves equity by the held quantity times the move, on either account. */
  lemma MarkEquityLaw(b: Book, series: Series, price: real, at: Time, source: MarkSource, sequence: nat)
    requires Good(b) && SetMark(b, series, price, at, source, sequence).raised.None?
    requires series.digest in b.positions ==> series.digest in b.marks
    ensures Equity(SetMark(b, series, price, at, source, sequence).book)
         == Equity(b) + (if series.digest in b.positions
                         then MarkGain(b.positions[series.digest], b.marks[series.digest], Mark(price, at, source)) else 0.0)
  {
    hide MarkGain;
    MarkedEquity(b, series.digest, Mark(price, at, source));
    MarkedBook(b, series, price, at, source, sequence);
    hide SetMark;
  }

  lemma MarkedBook(b: Book, series: Series, price: real, at: Time, source: MarkSource, sequence: nat)
    requires SetMark(b, series, price, at, source, sequence).raised.None?
    ensures var c := SetMark(b, series, price, at, source, sequence).book;
            c.cash == b.cash && c.positions == b.positions && c.marks == b.marks[series.digest := Mark(price, at, source)]
  {
    hide Snapshot;
  }

  lemma MarkedEquity(b: Book, key: Digest, mark: Mark)
    requires Keyed(b.positions) && (key in b.positions ==> key in b.marks)
    ensures b.cash + Total(EquityParts(b.positions, b.marks[key := mark]))
         == Equity(b) + (if key in b.positions then MarkGain(b.positions[key], b.marks[key], mark) else 0.0)
  {
    hide Total;
    hide EquityPart;
    hide ValidPosition;
    hide MarkGain;
    MarkedParts(b.positions, b.marks, key, mark);
    if key in b.positions {
      var p := b.positions[key];
      MarkPartLaw(p, b.marks[key], mark);
      TotalUpdate(EquityParts(b.positions, b.marks), key, EquityPart(p, Some(mark)));
    }
  }

  lemma MarkedParts(ps: Held, ms: Marks, key: Digest, mark: Mark)
    ensures EquityParts(ps, ms[key := mark])
         == if key in ps then EquityParts(ps, ms)[key := EquityPart(ps[key], Some(mark))] else EquityParts(ps, ms)
  {
    hide EquityPart;
  }

  lemma MarkPartLaw(p: PositionState, before: Mark, after: Mark)
    requires ValidPosition(p)
    ensures EquityPart(p, Some(after)) == EquityPart(p, Some(before)) + MarkGain(p, before, after)
  {
  }

  // ---------------------------------------------------------------- reconciliation

  /** The unrealized profit the metrics read: from the last snapshot of every series. */
  ghost function LatestUnrealized(snaps: seq<PositionSnapshot>): map<nat, real> {
    map k | k in Latest(snaps) :: Latest(snaps)[k].unrealized
  }

  ghost function ReportedPnl(b: Book): real {
    Total(RealizedParts(b.positions)) + Total(LatestUnrealized(b.snapshots)) + AmountsOf(b.ledger, Funding) + AmountsOf(b.ledger, Fee)
  }

  predicate UnmarkedSpot(ps: Held, ms: Marks) {
    exists k :: k in ps && k !in ms && ps[k].mode == Spot && ps[k].quantity != 0.0
  }

  /** Net profit equals realized plus unrealized plus funding less fees exactly when no Spot holding
      lacks a mark. */
  lemma ReconcilesExactly(b: Book)
    requires Good(b)
    ensures Equity(b) - b.initialCash == ReportedPnl(b) <==> !UnmarkedSpot(b.positions, b.marks)
  {
    hide Balanced;
    hide AmountsOf;
    hide Latest;
    hide Total;
    assert LatestUnrealized(b.snapshots) == UnrealizedParts(b.positions, b.marks);
    UncoveredCost(b.positions, b.marks);
  }

  lemma UncoveredCost(ps: Held, ms: Marks)
    requires Keyed(ps)
    ensures var gap := Total(CostParts(ps)) + Total(UnrealizedParts(ps, ms)) - Total(EquityParts(ps, ms));
            gap == 0.0 <==> !UnmarkedSpot(ps, ms)
  {
    hide Total;
    var missing := map k | k in ps :: if k in ms then 0.0 else CostPart(ps[k]);
    var covered := map k | k in ps :: EquityParts(ps, ms)[k] + missing[k];
    forall k | k in ps
      ensures covered[k] == CostParts(ps)[k] + UnrealizedParts(ps, ms)[k]
      ensures missing[k] >= 0.0
      ensures missing[k] != 0.0 <==> k !in ms && ps[k].mode == Spot && ps[k].quantity != 0.0
    {
      CoveredPart(ps[k], MarkOf(ms, k));
    }
    TotalAdds(EquityParts(ps, ms), missing, covered);
    TotalAdds(CostParts(ps), UnrealizedParts(ps, ms), covered);
    TotalNonNegative(missing);
  }

  lemma CoveredPart(p: PositionState, mark: Option<Mark>)
    requires ValidPosition(p)
    ensures p.mode == Spot ==> CostPart(p) >= 0.0 && (CostPart(p) == 0.0 <==> p.quantity == 0.0)
    ensures EquityPart(p, mark) + (if mark.Some? then 0.0 else CostPart(p)) == CostPart(p) + UnrealizedPnl(p, PriceOf(mark))
  {
  }

  // ---------------------------------------------------------------- the mutable portfolio

  lemma EquityStep(done: Held, ms: Marks, k: Digest, p: PositionState)
    requires k !in done
    ensures Total(EquityParts(done[k := p], ms)) == Total(EquityParts(done, ms)) + EquityPart(p, MarkOf(ms, k))
  {
    hide Total;
    hide EquityPart;
    assert EquityParts(done[k := p], ms) == EquityParts(done, ms)[k := EquityPart(p, MarkOf(ms, k))];
    TotalUpdate(EquityParts(done, ms), k, EquityPart(p, MarkOf(ms, k)));
  }

  lemma ExposureStep(done: Held, ms: Marks, k: Digest, p: PositionState)
    requires k !in done
    ensures Total(Exposures(done[k := p], ms)) == Total(Exposures(done, ms)) + Exposure(p, MarkOf(ms, k))
  {
    hide Total;
    hide Exposure;
    assert Exposures(done[k := p], ms) == Exposures(done, ms)[k := Exposure(p, MarkOf(ms, k))];
    TotalUpdate(Exposures(done, ms), k, Exposure(p, MarkOf(ms, k)));
  }

  lemma GrossStep(done: Held, ms: Marks, k: Digest, p: PositionState)
    requires k !in done
    ensures Total(GrossExposures(done[k := p], ms)) == Total(GrossExposures(done, ms)) + Abs(Exposure(p, MarkOf(ms, k)))
  {
    hide Total;
    hide Exposure;
    assert GrossExposures(done[k := p], ms) == GrossExposures(done, ms)[k := Abs(Exposure(p, MarkOf(ms, k)))];
    TotalUpdate(GrossExposures(done, ms), k, Abs(Exposure(p, MarkOf(ms, k))));
  }

  lemma RealizedStep(done: Held, ms: Marks, k: Digest, p: PositionState)
    requires k !in done
    ensures Total(RealizedParts(done[k := p])) == Total(RealizedParts(done)) + p.realized
  {
    hide Total;
    assert RealizedParts(done[k := p]) == RealizedParts(done)[k := p.realized];
    TotalUpdate(RealizedParts(done), k, p.realized);
  }

  lemma UnrealizedStep(done: Held, ms: Marks, k: Digest, p: PositionState)
    requires k !in done
    ensures Total(UnrealizedParts(done[k := p], ms)) == Total(UnrealizedParts(done, ms)) + UnrealizedPnl(p, PriceOf(MarkOf(ms, k)))
  {
    hide Total;
    hide UnrealizedPnl;
    assert UnrealizedParts(done[k := p], ms) == UnrealizedParts(done, ms)[k := UnrealizedPnl(p, PriceOf(MarkOf(ms, k)))];
    TotalUpdate(UnrealizedParts(done, ms), k, UnrealizedPnl(p, PriceOf(MarkOf(ms, k))));
  }

  lemma StaleStep(done: Held, ms: Marks, k: Digest, p: PositionState, at: Time)
    requires k !in done
    ensures |StaleKeys(done[k := p], ms, at)| == |StaleKeys(done, ms, at)| + (if k !in ms || ms[k].at < at then 1 else 0)
  {
    var before, after := StaleKeys(done, ms, at), StaleKeys(done[k := p], ms, at);
    assert k !in before;
    if k !in ms || ms[k].at < at {
      assert after == before + {k};
    } else {
      assert after == before;
    }
  }

  datatype Valuation = Valuation(worth: real, gross: real, net: real, realized: real, unrealized: real, stale: nat)

  ghost function ValuationOf(ps: Held, ms: Marks, at: Time): Valuation {
    Valuation(Total(EquityParts(ps, ms)), Total(GrossExposures(ps, ms)), Total(Exposures(ps, ms)),
              Total(RealizedParts(ps)), Total(UnrealizedParts(ps, ms)), |StaleKeys(ps, ms, at)|)
  }

  lemma ValuationStep(done: Held, ms: Marks, k: Digest, p: PositionState, at: Time)
    requires k !in done
    ensures var v, exposure := ValuationOf(done, ms, at), Exposure(p, MarkOf(ms, k));
            ValuationOf(done[k := p], ms, at)
            == Valuation(v.worth + EquityPart(p, MarkOf(ms, k)), v.gross + Abs(exposure), v.net + exposure,
                         v.realized + p.realized, v.unrealized + UnrealizedPnl(p, PriceOf(MarkOf(ms, k))),
                         v.stale + (if k !in ms || ms[k].at < at then 1 else 0))
  {
    hide Total;
    hide StaleKeys;
    hide EquityPart;
    hide Exposure;
    hide UnrealizedPnl;
    EquityStep(done, ms, k, p);
    ExposureStep(done, ms, k, p);
    GrossStep(done, ms, k, p);
    RealizedStep(done, ms, k, p);
    UnrealizedStep(done, ms, k, p);
    StaleStep(done, ms, k, p, at);
  }

  class Portfolio {
    const initialCash: real
    const currency: string
    var cash: real
    var positions: Held
    var marks: Marks
    var ledger: seq<LedgerRow>
    var snapshots: seq<PositionSnapshot>
    var accounts: seq<AccountSnapshot>
    var applied: set<Uuid>
    var totalFees: real
    var totalFunding: real
    var peak: real
    var nextSequence: nat

    predicate Valid()
      reads this
    {
      nextSequence == |ledger| && Keyed(positions)
    }

    function Value(): Book
      reads this
    {
      Book(initialCash, currency, cash, positions, marks, ledger, snapshots, accounts, applied, totalFees, totalFunding, peak)
    }

    constructor (initialCash: real, currency: string, at: Time)
      requires initialCash >= 0.0
      ensures Valid() && Value() == OpenBook(initialCash, currency, at)
    {
      this.initialCash := initialCash;
      this.currency := currency;
      cash, positions, marks, ledger, snapshots, accounts := 0.0, map[], map[], [], [], [];
      applied, totalFees, totalFunding, peak, nextSequence := {}, 0.0, 0.0, initialCash, 0;
      new;
      PostEntry(InitialCash, initialCash, at, None, None);
    }

    method PostEntry(entry: EntryType, amount: real, at: Time, series: Option<Digest>, fillId: Option<Uuid>)
      requires Valid()
      modifies this
      ensures Valid() && Value() == Post(old(Value()), entry, amount, at, series, fillId)
    {
      cash := cash + amount;
      var row := LedgerRow(at, entry, amount, cash, nextSequence, series, fillId);
      nextSequence := nextSequence + 1;
      ledger := ledger + [row];
    }

    method SnapshotPosition(p: PositionState, at: Time, kind: SnapshotKind, sequence: nat, fillId: Option<Uuid>)
      returns (raised: Option<Error>)
      requires Valid()
      modifies this
      ensures Valid() && Outcome(Value(), raised) == TakeSnapshot(old(Value()), p, at, kind, sequence, fillId)
    {
      var mark, age, source := None, None, None;
      if p.series.digest in marks {
        var info := marks[p.series.digest];
        mark, age, source := Some(info.price), Some(at - info.at), Some(info.source);
      }
      if age.Some? && age.value < 0 {
        return Some(NegativeMarkAge);
      }
      snapshots := snapshots + [PositionSnapshot(p.series, at, p.quantity, p.average, mark, p.realized,
                                                 UnrealizedPnl(p, mark), age, kind, source, sequence, fillId)];
      raised := None;
    }

    method Fill(fill: Fill, sequence: nat) returns (raised: Option<Error>)
      requires Valid() && ValidFill(fill)
      modifies this
      ensures Valid() && Outcome(Value(), raised) == ApplyFill(old(Value()), fill, sequence)
    {
      hide Move;
      hide Shape;
      hide PostTrade;
      hide PostFee;
      if fill.id in applied {
        return Some(DuplicateFill);
      }
      if fill.feeCurrency != currency {
        return Some(FeeCurrencyMismatch);
      }
      var key := fill.series.digest;
      var state := if key in positions then positions[key] else EmptyPosition(fill.series, fill.mode, fill.filledAt);
      var transition := ApplyFillToPosition(state, fill);
      if transition.Failure? {
        return Some(transition.error);
      }
      var t := transition.value;
      ApplyFillLaw(state, fill);
      PostAll(fill, t);
      positions := positions[key := t.state];
      applied := applied + {fill.id};
      raised := SnapshotPosition(t.state, fill.filledAt, FillSnapshot, sequence, Some(fill.id));
    }

    method PostAll(fill: Models.Fill, t: Transition)
      requires Valid()
      modifies this
      ensures Valid() && Value() == PostFee(PostTrade(old(Value()), fill, t), fill)
    {
      var key, id := Some(fill.series.digest), Some(fill.id);
      if fill.mode == Spot {
        PostEntry(SpotNotional, SpotCash(fill), fill.filledAt, key, id);
      } else if t.realizedDelta != 0.0 {
        PostEntry(RealizedPnl, t.realizedDelta, fill.filledAt, key, id);
      }
      assert Value() == PostTrade(old(Value()), fill, t);
      if fill.fee != 0.0 {
        PostEntry(Fee, -fill.fee, fill.filledAt, key, id);
      }
      totalFees := totalFees + fill.fee;
    }

    method Mark(series: Series, price: real, at: Time, source: MarkSource, sequence: nat) returns (raised: Option<Error>)
      requires Valid()
      modifies this
      ensures Valid() && Outcome(Value(), raised) == SetMark(old(Value()), series, price, at, source, sequence)
    {
      if price <= 0.0 {
        return Some(BadMark);
      }
      marks := marks[series.digest := Models.Mark.Mark(price, at, source)];
      if series.digest !in positions {
        return None;
      }
      raised := SnapshotPosition(positions[series.digest], at,
                                 if source == BarOpen then OpenMarkSnapshot else CloseMarkSnapshot, sequence, None);
    }

    method Fund(payment: FundingPayment)
      requires Valid()
      modifies this
      ensures Valid() && Value() == ApplyFunding(old(Value()), payment)
    {
      totalFunding := totalFunding + payment.cashFlow;
      PostEntry(Funding, payment.cashFlow, payment.at, Some(payment.series.digest), None);
    }

    /** What one position adds to exposure, unrealized profit and equity, and whether its mark is stale. */
    method ValueOf(key: Digest, at: Time) returns (exposure: real, unrealized: real, equity: real, stale: bool)
      requires Valid() && key in positions
      ensures exposure == Exposure(positions[key], MarkOf(marks, key))
      ensures unrealized == UnrealizedPnl(positions[key], PriceOf(MarkOf(marks, key)))
      ensures equity == EquityPart(positions[key], MarkOf(marks, key))
      ensures stale <==> key !in marks || marks[key].at < at
    {
      if key !in marks {
        return 0.0, 0.0, 0.0, true;
      }
      var state, mark := positions[key], marks[key];
      exposure := state.quantity * mark.price;
      unrealized := UnrealizedPnl(state, Some(mark.price));
      equity := if state.mode == Spot then exposure else unrealized;
      stale := mark.at < at;
    }

    /** One pass over the positions, in any order. */
    method Values(at: Time) returns (v: Valuation)
      requires Valid()
      ensures v == ValuationOf(positions, marks, at).(worth := Equity(Value()))
    {
      hide ValuationOf;
      hide EquityPart;
      hide Exposure;
      hide UnrealizedPnl;
      var equity, gross, net, realized, unrealized, stale := cash, 0.0, 0.0, 0.0, 0.0, 0;
      var keys := positions.Keys;
      ghost var done: Held := map[];
      NothingValued(marks, at);
      while keys != {}
        invariant keys <= positions.Keys && done.Keys == positions.Keys - keys
        invariant forall k :: k in done ==> done[k] == positions[k]
        invariant Valuation(equity - cash, gross, net, realized, unrealized, stale) == ValuationOf(done, marks, at)
        decreases keys
      {
        var key :| key in keys;
        var exposure, profit, worth, isStale := ValueOf(key, at);
        ValuationStep(done, marks, key, positions[key], at);
        equity, gross, net := equity + worth, gross + Abs(exposure), net + exposure;
        realized, unrealized := realized + positions[key].realized, unrealized + profit;
        stale := if isStale then stale + 1 else stale;
        keys, done := keys - {key}, done[key := positions[key]];
      }
      assert done == positions;
      EquityOfValuation(Value(), at);
      v := Valuation(equity, gross, net, realized, unrealized, stale);
    }

    method SnapshotAll(at: Time)
      requires Valid()
      modifies this
      ensures Valid() && Value() == SnapshotAccount(old(Value()), at)
    {
      hide Total;
      hide StaleKeys;
      var v := Values(at);
      accounts := accounts + [AccountSnapshot(at, cash, v.worth, v.gross, v.net, v.realized, v.unrealized, totalFees, totalFunding, v.stale)];
      peak := Max(peak, v.worth);
    }
  }

  lemma EquityOfValuation(b: Book, at: Time)
    ensures Equity(b) == b.cash + ValuationOf(b.positions, b.marks, at).worth
  {
  }

  lemma NothingValued(ms: Marks, at: Time)
    ensures ValuationOf(map[], ms, at) == Valuation(0.0, 0.0, 0.0, 0.0, 0.0, 0)
  {
  }
}
