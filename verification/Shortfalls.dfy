/** Two books the engine reaches on which the metrics fall short: a funding payment that no round trip receives, and
    an account whose curve point cannot be made. */
module Shortfalls {
  import opened Results
  import opened Models
  import opened MapSums
  import opened Accounting
  import opened RoundTrips
  import opened Metrics
  import opened Events
  import opened Backtest
  import Positions
  import Sorting

  // ---------------------------------------------------------------- lost funding

  /** A buy of one contract at the bar's completion, at instant 5. */
  function LateFill(series: Series): (f: Fill)
    ensures ValidFill(f)
  {
    Fill(7, series, 5, Buy, 1.0, 10.0, LinearPerpetual, 0.0, "USDT")
  }

  /** The funding record of that instant. */
  function LateRate(series: Series): FundingRate {
    FundingRate(series, 5, 0.1, false, true)
  }

  /** The books of one run: the bar opens at 10, its completion fills the order, it closes at 10, and funding is paid. */
  function OpenedBook(series: Series): (b: Book)
    ensures Keyed(b.positions)
  {
    SetMark(OpenBook(100.0, "USDT", 0), series, 10.0, 0, BarOpen, 1).book
  }

  function FilledBook(series: Series): Book {
    ApplyFill(OpenedBook(series), LateFill(series), 2).book
  }

  function ClosedBook(series: Series): Book {
    SetMark(FilledBook(series), series, 10.0, 5, BarClose, 3).book
  }

  function LateHolding(series: Series): PositionState {
    PositionState(series, LinearPerpetual, 1.0, Some(10.0), 0.0, 5, [7])
  }

  function FillShown(series: Series): PositionSnapshot {
    PositionSnapshot(series, 5, 1.0, Some(10.0), Some(10.0), 0.0, 0.0, Some(5), FillSnapshot, Some(BarOpen), 2, Some(7))
  }

  function CloseShown(series: Series): PositionSnapshot {
    PositionSnapshot(series, 5, 1.0, Some(10.0), Some(10.0), 0.0, 0.0, Some(0), CloseMarkSnapshot, Some(BarClose), 3, None)
  }

  lemma OpenedRecords(series: Series)
    ensures SetMark(OpenBook(100.0, "USDT", 0), series, 10.0, 0, BarOpen, 1).raised.None?
    ensures OpenedBook(series)
         == Book(100.0, "USDT", 100.0, map[], map[series.digest := Mark(10.0, 0, BarOpen)],
                 [LedgerRow(0, InitialCash, 100.0, 100.0, 0, None, None)], [], [], {}, 0.0, 0.0, 100.0)
  {
  }

  lemma LateTransition(series: Series)
    ensures var t := Positions.ApplyFillToPosition(Positions.EmptyPosition(series, LinearPerpetual, 5), LateFill(series));
            t.Success? && t.value.state == LateHolding(series) && t.value.realizedDelta == 0.0
  {
    assert Signed(LateFill(series)) == 1.0;
  }

  lemma FilledRecords(series: Series)
    ensures ApplyFill(OpenedBook(series), LateFill(series), 2).raised.None?
    ensures var b := FilledBook(series);
            && b.positions == map[series.digest := LateHolding(series)] && b.marks == OpenedBook(series).marks
            && b.ledger == OpenedBook(series).ledger && b.cash == 100.0 && b.snapshots == [FillShown(series)]
  {
    OpenedRecords(series);
    LateTransition(series);
    hide OpenedBook;
    hide Positions.ApplyFillToPosition;
    assert PositionFor(OpenedBook(series), series, LinearPerpetual, 5) == Positions.EmptyPosition(series, LinearPerpetual, 5);
  }

  lemma ClosedRecords(series: Series)
    ensures SetMark(FilledBook(series), series, 10.0, 5, BarClose, 3).raised.None?
    ensures var b := ClosedBook(series);
            && b.positions == map[series.digest := LateHolding(series)] && b.marks == map[series.digest := Mark(10.0, 5, BarClose)]
            && b.ledger == [LedgerRow(0, InitialCash, 100.0, 100.0, 0, None, None)] && b.cash == 100.0
            && b.snapshots == [FillShown(series), CloseShown(series)]
  {
    OpenedRecords(series);
    FilledRecords(series);
    hide OpenedBook;
    hide FilledBook;
    hide OpenBook;
  }

  /** The engine's own payment: one contract at 10, charged a tenth. */
  lemma LatePayment(series: Series)
    requires series.instrument.kind == PerpetualSwap
    ensures PaymentFor(LateRate(series), LateHolding(series), 10.0, false)
         == Success(Some(LateFunding(series)))
  {
  }

  function LateFunding(series: Series): FundingPayment {
    FundingPayment(series, 5, 1.0, 10.0, 0.1, -1.0)
  }

  function LateFundedBook(series: Series): Book {
    ApplyFunding(ClosedBook(series), LateFunding(series))
  }

  lemma LateRecords(series: Series)
    ensures var b := LateFundedBook(series);
            && b.snapshots == [FillShown(series), CloseShown(series)]
            && b.ledger == [LedgerRow(0, InitialCash, 100.0, 100.0, 0, None, None),
                            LedgerRow(5, Funding, -1.0, 99.0, 1, Some(series.digest), None)]
  {
    ClosedRecords(series);
    hide ClosedBook;
  }

  lemma ShownFills(fill: PositionSnapshot, close: PositionSnapshot)
    requires fill.fillId.Some? && close.fillId.None?
    ensures FillItems([fill, close]) == [FillItem(fill)]
  {
    assert [fill, close][..1] == [fill] && [fill][..0] == [];
    assert FillItems([fill]) == [FillItem(fill)];
  }

  lemma LateTimeline(series: Series)
    ensures var b := LateFundedBook(series);
            && |b.ledger| == 2 && Timeline(b.snapshots, b.ledger) == [FundItem(b.ledger[1]), FillItem(FillShown(series))]
  {
    LateRecords(series);
    hide LateFundedBook;
    var b := LateFundedBook(series);
    var items := [FundItem(b.ledger[1]), FillItem(FillShown(series))];
    ShownFills(FillShown(series), CloseShown(series));
    hide FillItems;
    assert b.ledger[..1][..0] == [] && FundItems(b.ledger[..1]) == [];
    assert FundItems(b.ledger) == [items[0]];
    assert [items[0]] + [items[1]] == items;
    assert Sorting.Ordered(items, RoundTrips.Before) && Sorting.DistinctKeys(items, RoundTrips.Before);
    RoundTrips.BeforeIsTotal();
    Sorting.SortIdle(items, RoundTrips.Before);
  }

  /** The round trips of a book and its one fill hold none of its one unit of funding. */
  ghost predicate Misses(b: Book, fill: Fill)
    requires ValidFill(fill)
  {
    var trips := FoldBook(b, [fill]);
    trips.Success? && trips.value.results == [] && Total(trips.value.accumulated) == 0.0 && AmountsOf(b.ledger, Funding) == -1.0
  }

  /** Opened, filled at its completion, closed and funded by the engine's own payment: the payment reaches no round
      trip and no accumulator. */
  lemma SameInstantFundingIsLost(series: Series)
    requires series.instrument.kind == PerpetualSwap
    ensures var b := ClosedBook(series);
            && b.positions == map[series.digest := LateHolding(series)] && b.marks == map[series.digest := Mark(10.0, 5, BarClose)]
            && PaymentFor(LateRate(series), LateHolding(series), 10.0, false) == Success(Some(LateFunding(series)))
    ensures Misses(ApplyFunding(ClosedBook(series), LateFunding(series)), LateFill(series))
  {
    ClosedRecords(series);
    LatePayment(series);
    LateTimeline(series);
    LateRecords(series);
    hide LateFundedBook;
    hide ClosedBook;
    hide PaymentFor;
    var b := LateFundedBook(series);
    hide FoldBook;
    LateSums(b.ledger);
    LateFold(series, b, FundItem(b.ledger[1]));
  }

  lemma LateSums(rows: seq<LedgerRow>)
    requires |rows| == 2 && rows[0].entry == InitialCash && rows[1].entry == Funding && rows[1].amount == -1.0
    ensures AmountsOf(rows, Funding) == -1.0 && FeeOf(rows, 7) == 0.0
  {
    assert rows[..1][..0] == [];
    assert AmountsOf(rows[..1], Funding) == 0.0 && FeeOf(rows[..1], 7) == 0.0;
  }

  lemma OneQuantity(fill: Fill)
    ensures Quantities([fill]) == map[fill.id := fill.quantity]
  {
    assert [fill][..0] == [];
  }

  lemma LateFold(series: Series, b: Book, paid: Item)
    requires paid.FundItem? && paid.row.series == Some(series.digest) && FeeOf(b.ledger, 7) == 0.0
    requires Timeline(b.snapshots, b.ledger) == [paid, FillItem(FillShown(series))]
    ensures FoldBook(b, [LateFill(series)])
         == Success(Trips(map[series.digest := 1.0], map[series.digest := 0.0], map[series.digest := 0.0], []))
    ensures Total(map[series.digest := 0.0]) == 0.0
  {
    var items := [paid, FillItem(FillShown(series))];
    hide FeeOf;
    hide Timeline;
    OneQuantity(LateFill(series));
    hide Quantities;
    assert items[..1] == [paid] && [paid][..0] == [];
    assert Fold([paid], b.ledger, map[7 := 1.0]) == Success(NO_TRIPS);
    TotalNonNegative(map[series.digest := 0.0]);
  }

  // ---------------------------------------------------------------- negative equity

  function ShortFill(series: Series): (f: Fill)
    ensures ValidFill(f)
  {
    Fill(7, series, 5, Sell, 1.0, 10.0, LinearPerpetual, 0.0, "USDT")
  }

  /** One unit of cash, drawn up while flat; then one contract sold at 10. */
  ghost function ShortBook(series: Series): Book {
    ApplyFill(SnapshotAccount(SetMark(OpenBook(1.0, "USDT", 0), series, 10.0, 0, BarOpen, 1).book, 0), ShortFill(series), 2).book
  }

  /** The contract is then marked at 20 and the account drawn up again. */
  ghost function UnderwaterBook(series: Series): Book {
    SnapshotAccount(SetMark(ShortBook(series), series, 20.0, 6, BarClose, 3).book, 6)
  }

  function ShortHolding(series: Series): PositionState {
    PositionState(series, LinearPerpetual, -1.0, Some(10.0), 0.0, 5, [7])
  }

  lemma ShortRecords(series: Series)
    ensures var flat := SetMark(OpenBook(1.0, "USDT", 0), series, 10.0, 0, BarOpen, 1).book; var b := ShortBook(series);
            && ApplyFill(SnapshotAccount(flat, 0), ShortFill(series), 2).raised.None?
            && b.cash == 1.0 && b.positions == map[series.digest := ShortHolding(series)] && b.marks.Keys == {series.digest}
            && |b.accounts| == 1 && b.accounts[0].equity == 1.0
  {
    var fill, empty := ShortFill(series), Positions.EmptyPosition(series, LinearPerpetual, 5);
    assert Signed(fill) == -1.0;
    var t := Positions.ApplyFillToPosition(empty, fill).value;
    assert t.state == ShortHolding(series) && t.realizedDelta == 0.0;
    hide Positions.ApplyFillToPosition;
    var flat := SetMark(OpenBook(1.0, "USDT", 0), series, 10.0, 0, BarOpen, 1).book;
    assert EquityParts(flat.positions, flat.marks) == map[];
    assert PositionFor(SnapshotAccount(flat, 0), series, LinearPerpetual, 5) == empty;
  }

  lemma ShortWorth(series: Series)
    ensures Total(EquityParts(map[series.digest := ShortHolding(series)], map[series.digest := Mark(20.0, 6, BarClose)])) == -10.0
  {
    var p, mark := ShortHolding(series), Mark(20.0, 6, BarClose);
    assert EquityPart(p, Some(mark)) == -10.0;
    hide EquityPart;
    assert EquityParts(map[series.digest := p], map[series.digest := mark]) == map[][series.digest := -10.0];
    TotalUpdate(map[], series.digest, -10.0);
  }

  lemma UnderwaterEquity(series: Series)
    ensures SetMark(ShortBook(series), series, 20.0, 6, BarClose, 3).raised.None?
    ensures var b := SetMark(ShortBook(series), series, 20.0, 6, BarClose, 3).book;
            Equity(b) == -9.0 && b.accounts == ShortBook(series).accounts
  {
    hide ShortBook;
    hide Total;
    hide EquityParts;
    hide Snapshot;
    ShortRecords(series);
    ShortWorth(series);
    var b := SetMark(ShortBook(series), series, 20.0, 6, BarClose, 3).book;
    MarkedBook(ShortBook(series), series, 20.0, 6, BarClose, 3);
    assert b.marks == map[series.digest := Mark(20.0, 6, BarClose)];
  }

  lemma BelowItsPeak(a: AccountSnapshot, b: AccountSnapshot)
    requires a.equity == 1.0 && b.equity == -9.0
    ensures PointAfter([a, b]) == Failure(BadDrawdown)
  {
    assert [a, b][..1] == [a];
    assert PeakEquity([a]) == 1.0 && PeakEquity([a, b]) == 1.0;
    hide PeakEquity;
  }

  /** Equity of -9 below a peak of 1: the account is drawn up, and its curve point raises. */
  lemma NegativeEquityRaises(series: Series)
    ensures var b := UnderwaterBook(series);
            && |b.accounts| == 2 && b.accounts[0].equity == 1.0 && b.accounts[1].equity == -9.0
            && PointAfter(b.accounts) == Failure(BadDrawdown)
  {
    ShortRecords(series);
    UnderwaterEquity(series);
    hide ShortBook;
    hide SetMark;
    hide Equity;
    hide PointAfter;
    var b := UnderwaterBook(series);
    BelowItsPeak(b.accounts[0], b.accounts[1]);
    assert b.accounts == [b.accounts[0], b.accounts[1]];
  }
}
