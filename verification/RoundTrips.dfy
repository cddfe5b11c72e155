/** Completed round trips (`_round_trip_pnls` in backtesting/metrics.py): the timeline is rebuilt from fill
    snapshots and funding rows, sorted, and folded into per-series accumulators. */
module RoundTrips {
  import opened Results
  import opened Models
  import opened MapSums
  import opened Sorting
  import Positions
  import opened Accounting

  datatype Item = FillItem(snap: PositionSnapshot) | FundItem(row: LedgerRow)

  predicate ValidItem(item: Item) {
    match item
    case FillItem(snap) => snap.fillId.Some?
    case FundItem(row) => row.series.Some?
  }

  function ItemKey(item: Item): Digest
    requires ValidItem(item)
  {
    if item.FillItem? then item.snap.series.digest else item.row.series.value
  }

  function ItemTime(item: Item): Time {
    if item.FillItem? then item.snap.at else item.row.at
  }

  function ItemSequence(item: Item): nat {
    if item.FillItem? then item.snap.sequence else item.row.sequence
  }

  function ItemSeries(item: Item): nat {
    if item.FillItem? then item.snap.series.digest else if item.row.series.Some? then item.row.series.value else 0
  }

  /** The timeline's sort key: time, funding before fills, sequence, series. */
  predicate Before(x: Item, y: Item) {
    var (s, t) := (ItemTime(x), ItemTime(y));
    var (k, l) := (if x.FillItem? then 1 else 0, if y.FillItem? then 1 else 0);
    var (m, n) := (ItemSequence(x), ItemSequence(y));
    s < t || (s == t && (k < l || (k == l && (m < n || (m == n && ItemSeries(x) <= ItemSeries(y))))))
  }

  function FillItems(snaps: seq<PositionSnapshot>): seq<Item> {
    if snaps == [] then []
    else
      var last := snaps[|snaps| - 1];
      FillItems(snaps[..|snaps| - 1]) + (if last.fillId.Some? then [FillItem(last)] else [])
  }

  function FundItems(rows: seq<LedgerRow>): seq<Item> {
    if rows == [] then []
    else
      var last := rows[|rows| - 1];
      FundItems(rows[..|rows| - 1]) + (if last.entry == Funding && last.series.Some? then [FundItem(last)] else [])
  }

  function Timeline(snaps: seq<PositionSnapshot>, rows: seq<LedgerRow>): seq<Item> {
    Sort(FundItems(rows) + FillItems(snaps), Before)
  }

  /** What the ledger charged for one fill (a negative amount). */
  function FeeOf(rows: seq<LedgerRow>, id: Uuid): real {
    if rows == [] then 0.0
    else
      var last := rows[|rows| - 1];
      FeeOf(rows[..|rows| - 1], id) + (if last.entry == Fee && last.fillId == Some(id) then last.amount else 0.0)
  }

  datatype Trips = Trips(quantities: map<Digest, real>, realized: map<Digest, real>, accumulated: map<Digest, real>,
                         results: seq<real>)

  const NO_TRIPS := Trips(map[], map[], map[], [])

  function Quantities(fills: seq<Fill>): map<Uuid, real> {
    if fills == [] then map[]
    else
      var last := fills[|fills| - 1];
      Quantities(fills[..|fills| - 1])[last.id := last.quantity]
  }

  /** The part of a reversing fill's fee that belongs to the position it closes. */
  function ClosingFee(fee: real, oldQ: real, size: real): real
    requires size > 0.0
  {
    fee * (Abs(oldQ) / size)
  }

  predicate Reverses(oldQ: real, newQ: real) {
    oldQ * newQ < 0.0
  }

  /** One pass through the body of the fold. */
  function Advance(t: Trips, item: Item, rows: seq<LedgerRow>, sizes: map<Uuid, real>): Result<Trips, Error>
    requires ValidItem(item)
    requires forall id :: id in sizes ==> sizes[id] > 0.0
  {
    var key := ItemKey(item);
    var oldQ := Get(t.quantities, key);
    match item
    case FundItem(row) =>
      if oldQ != 0.0 then Success(t.(accumulated := t.accumulated[key := Get(t.accumulated, key) + row.amount]))
      else Success(t)
    case FillItem(snap) =>
      var newQ := snap.quantity;
      var delta := snap.realized - Get(t.realized, key);
      var fee := FeeOf(rows, snap.fillId.value);
      if snap.fillId.value !in sizes then Failure(MissingFill)
      else
        var u := t.(quantities := t.quantities[key := newQ], realized := t.realized[key := snap.realized]);
        if oldQ == 0.0 then Success(u.(accumulated := t.accumulated[key := fee]))
        else if Reverses(oldQ, newQ) then
          var closing := ClosingFee(fee, oldQ, sizes[snap.fillId.value]);
          var closed := Get(t.accumulated, key) + delta + closing;
          Success(u.(results := t.results + [closed], accumulated := t.accumulated[key := fee - closing]))
        else
          var total := Get(t.accumulated, key) + delta + fee;
          if newQ == 0.0 then Success(u.(results := t.results + [total], accumulated := t.accumulated[key := 0.0]))
          else Success(u.(accumulated := t.accumulated[key := total]))
  }

  function Fold(items: seq<Item>, rows: seq<LedgerRow>, sizes: map<Uuid, real>): Result<Trips, Error>
    requires forall x :: x in items ==> ValidItem(x)
    requires forall id :: id in sizes ==> sizes[id] > 0.0
    decreases |items|
  {
    if items == [] then Success(NO_TRIPS)
    else
      var t :- Fold(items[..|items| - 1], rows, sizes);
      Advance(t, items[|items| - 1], rows, sizes)
  }

  // ---------------------------------------------------------------- what a fold conserves

  function QuantityAfter(items: seq<Item>, key: Digest): real {
    if items == [] then 0.0
    else
      var last := items[|items| - 1];
      if last.FillItem? && last.snap.series.digest == key then last.snap.quantity
      else QuantityAfter(items[..|items| - 1], key)
  }

  function RealizedAfter(items: seq<Item>, key: Digest): real {
    if items == [] then 0.0
    else
      var last := items[|items| - 1];
      if last.FillItem? && last.snap.series.digest == key then last.snap.realized
      else RealizedAfter(items[..|items| - 1], key)
  }

  /** Fill snapshots of a series continue one another: a fill of a flat series opens it and realizes nothing. */
  predicate Chained(items: seq<Item>) {
    items == [] ||
    (var front, last := items[..|items| - 1], items[|items| - 1];
     && Chained(front)
     && (last.FillItem? && QuantityAfter(front, last.snap.series.digest) == 0.0 ==>
           last.snap.quantity != 0.0 && last.snap.realized == RealizedAfter(front, last.snap.series.digest)))
  }

  function SumSeq(xs: seq<real>): real {
    if xs == [] then 0.0 else SumSeq(xs[..|xs| - 1]) + xs[|xs| - 1]
  }

  function FeePart(item: Item, rows: seq<LedgerRow>): real {
    if item.FillItem? && item.snap.fillId.Some? then FeeOf(rows, item.snap.fillId.value) else 0.0
  }

  function FundPart(item: Item): real {
    if item.FundItem? then item.row.amount else 0.0
  }

  function FeesIn(items: seq<Item>, rows: seq<LedgerRow>): real {
    SumBy(items, (x: Item) => FeePart(x, rows))
  }

  function FundsIn(items: seq<Item>): real {
    SumBy(items, FundPart)
  }

  /** Funding that the timeline meets while the series is flat, which no round trip receives. */
  function IdleFunding(items: seq<Item>): real {
    if items == [] then 0.0
    else
      var front, last := items[..|items| - 1], items[|items| - 1];
      IdleFunding(front)
      + (if last.FundItem? && last.row.series.Some? && QuantityAfter(front, last.row.series.value) == 0.0 then last.row.amount else 0.0)
  }

  ghost predicate Tracks(t: Trips, items: seq<Item>) {
    && (forall k :: Get(t.quantities, k) == QuantityAfter(items, k))
    && (forall k :: Get(t.realized, k) == RealizedAfter(items, k))
    && (forall k :: Get(t.quantities, k) == 0.0 ==> Get(t.accumulated, k) == 0.0)
  }

  lemma AdvanceTracks(t: Trips, items: seq<Item>, item: Item, rows: seq<LedgerRow>, sizes: map<Uuid, real>)
    requires ValidItem(item) && Tracks(t, items) && Chained(items + [item])
    requires forall id :: id in sizes ==> sizes[id] > 0.0
    requires Advance(t, item, rows, sizes).Success?
    ensures Tracks(Advance(t, item, rows, sizes).value, items + [item])
  {
    hide ClosingFee;
    var u, now := Advance(t, item, rows, sizes).value, items + [item];
    assert now[..|items|] == items && now[|items|] == item;
    forall k
      ensures Get(u.quantities, k) == QuantityAfter(now, k) && Get(u.realized, k) == RealizedAfter(now, k)
      ensures Get(u.quantities, k) == 0.0 ==> Get(u.accumulated, k) == 0.0
    {
      assert Get(t.quantities, k) == QuantityAfter(items, k) && Get(t.realized, k) == RealizedAfter(items, k);
    }
  }

  function IdlePart(items: seq<Item>, item: Item): real {
    if item.FundItem? && item.row.series.Some? && QuantityAfter(items, item.row.series.value) == 0.0 then item.row.amount else 0.0
  }

  lemma OneItemMore(items: seq<Item>, item: Item, rows: seq<LedgerRow>)
    ensures var now := items + [item];
            && IdleFunding(now) == IdleFunding(items) + IdlePart(items, item)
            && FeesIn(now, rows) == FeesIn(items, rows) + FeePart(item, rows)
            && FundsIn(now) == FundsIn(items) + FundPart(item)
  {
    hide QuantityAfter;
    var now := items + [item];
    assert now[..|items|] == items && now[|items|] == item;
  }

  lemma SumSeqAppend(xs: seq<real>, x: real)
    ensures SumSeq(xs + [x]) == SumSeq(xs) + x
  {
    assert (xs + [x])[..|xs|] == xs;
  }

  /** What a step settles and leaves open, against what its item books. */
  lemma AdvanceBooks(t: Trips, items: seq<Item>, item: Item, rows: seq<LedgerRow>, sizes: map<Uuid, real>)
    requires ValidItem(item) && Tracks(t, items) && Chained(items + [item])
    requires forall id :: id in sizes ==> sizes[id] > 0.0
    requires Advance(t, item, rows, sizes).Success?
    ensures var u := Advance(t, item, rows, sizes).value; var key := ItemKey(item);
            SumSeq(u.results) - SumSeq(t.results) + Get(u.accumulated, key) - Get(t.accumulated, key) + IdlePart(items, item)
            == Get(u.realized, key) - Get(t.realized, key) + FeePart(item, rows) + FundPart(item)
    ensures var u := Advance(t, item, rows, sizes).value; var key := ItemKey(item);
            && (u.accumulated == t.accumulated || u.accumulated == t.accumulated[key := Get(u.accumulated, key)])
            && (u.realized == t.realized || u.realized == t.realized[key := Get(u.realized, key)])
  {
    hide ClosingFee;
    hide Reverses;
    hide FeeOf;
    hide SumSeq;
    var u, key := Advance(t, item, rows, sizes).value, ItemKey(item);
    assert (items + [item])[..|items|] == items && (items + [item])[|items|] == item;
    assert Get(t.quantities, key) == QuantityAfter(items, key) && Get(t.realized, key) == RealizedAfter(items, key);
    hide QuantityAfter;
    hide RealizedAfter;
    if u.results != t.results {
      SumSeqAppend(t.results, u.results[|t.results|]);
    }
  }

  /** One step moves what is settled or still open by exactly what it books, unless it meets idle funding. */
  lemma AdvanceConserves(t: Trips, items: seq<Item>, item: Item, rows: seq<LedgerRow>, sizes: map<Uuid, real>)
    requires ValidItem(item) && Tracks(t, items) && Chained(items + [item])
    requires forall id :: id in sizes ==> sizes[id] > 0.0
    requires Advance(t, item, rows, sizes).Success?
    ensures var u, now := Advance(t, item, rows, sizes).value, items + [item];
            SumSeq(u.results) + Total(u.accumulated) + IdleFunding(now) - IdleFunding(items)
            == SumSeq(t.results) + Total(t.accumulated) + Total(u.realized) - Total(t.realized)
               + (FeesIn(now, rows) - FeesIn(items, rows)) + (FundsIn(now) - FundsIn(items))
  {
    hide Total;
    hide Advance;
    hide Tracks;
    hide Chained;
    hide SumSeq;
    var u, key := Advance(t, item, rows, sizes).value, ItemKey(item);
    AdvanceBooks(t, items, item, rows, sizes);
    OneItemMore(items, item, rows);
    hide IdlePart;
    hide FeePart;
    hide FundPart;
    hide FeesIn;
    hide FundsIn;
    TotalUpdate(t.realized, key, Get(u.realized, key));
    TotalUpdate(t.accumulated, key, Get(u.accumulated, key));
  }

  lemma {:induction false} FoldConserves(items: seq<Item>, rows: seq<LedgerRow>, sizes: map<Uuid, real>)
    requires forall x :: x in items ==> ValidItem(x)
    requires forall id :: id in sizes ==> sizes[id] > 0.0
    requires Chained(items) && Fold(items, rows, sizes).Success?
    ensures var t := Fold(items, rows, sizes).value;
            && Tracks(t, items)
            && SumSeq(t.results) + Total(t.accumulated) + IdleFunding(items)
               == Total(t.realized) + FeesIn(items, rows) + FundsIn(items)
    decreases |items|
  {
    if items != [] {
      var front, last := items[..|items| - 1], items[|items| - 1];
      assert items == front + [last];
      FoldConserves(front, rows, sizes);
      var t := Fold(front, rows, sizes).value;
      AdvanceTracks(t, front, last, rows, sizes);
      AdvanceConserves(t, front, last, rows, sizes);
    }
  }

  // ---------------------------------------------------------------- the history a book keeps

  ghost predicate FollowsPositions(items: seq<Item>, ps: Held) {
    && (forall k :: QuantityAfter(items, k) == if k in ps then ps[k].quantity else 0.0)
    && (forall k :: RealizedAfter(items, k) == if k in ps then ps[k].realized else 0.0)
  }

  predicate Attributed(rows: seq<LedgerRow>, applied: set<Uuid>) {
    forall i :: 0 <= i < |rows| ==>
      && (rows[i].entry == Fee ==> rows[i].fillId.Some? && rows[i].fillId.value in applied)
      && (rows[i].entry == Funding ==> rows[i].series.Some?)
  }

  predicate KnownFills(items: seq<Item>, applied: set<Uuid>) {
    forall i :: 0 <= i < |items| ==>
      items[i].FillItem? && items[i].snap.fillId.Some? && items[i].snap.fillId.value in applied
  }

  /** The fill snapshots chain and end at the present positions, and between them they carry every fee row. */
  ghost predicate HistoryLaw(b: Book) {
    var items := FillItems(b.snapshots);
    && Chained(items) && FollowsPositions(items, b.positions)
    && KnownFills(items, b.applied) && Attributed(b.ledger, b.applied)
    && FeesIn(items, b.ledger) == AmountsOf(b.ledger, Fee)
  }

  lemma OpenBookHistory(initialCash: real, currency: string, at: Time)
    ensures HistoryLaw(OpenBook(initialCash, currency, at))
  {
    var b := OpenBook(initialCash, currency, at);
    assert b.ledger[..0] == [] && FillItems(b.snapshots) == [];
  }

  lemma {:induction false} UnknownFee(rows: seq<LedgerRow>, applied: set<Uuid>, id: Uuid)
    requires Attributed(rows, applied) && id !in applied
    ensures FeeOf(rows, id) == 0.0
    decreases |rows|
  {
    if rows != [] {
      UnknownFee(rows[..|rows| - 1], applied, id);
    }
  }

  lemma {:induction false} SameFees(items: seq<Item>, rows: seq<LedgerRow>, more: seq<LedgerRow>, applied: set<Uuid>)
    requires KnownFills(items, applied)
    requires forall id: Uuid :: id in applied ==> FeeOf(more, id) == FeeOf(rows, id)
    ensures FeesIn(items, more) == FeesIn(items, rows)
    decreases |items|
  {
    if items != [] {
      SameFees(items[..|items| - 1], rows, more, applied);
    }
  }

  lemma PostHistory(b: Book, entry: EntryType, amount: real, at: Time, series: Option<Digest>, fillId: Option<Uuid>)
    ensures var c := Post(b, entry, amount, at, series, fillId);
            && (forall id: Uuid :: FeeOf(c.ledger, id) == FeeOf(b.ledger, id) + (if entry == Fee && fillId == Some(id) then amount else 0.0))
            && AmountsOf(c.ledger, Fee) == AmountsOf(b.ledger, Fee) + (if entry == Fee then amount else 0.0)
  {
    assert Post(b, entry, amount, at, series, fillId).ledger[..|b.ledger|] == b.ledger;
  }

  /** A fill adds its fee row under its own identity and leaves every other fill's fees alone. */
  lemma PostFillHistory(b: Book, fill: Fill, t: Positions.Transition)
    requires Attributed(b.ledger, b.applied)
    ensures var c := PostFill(b, fill, t);
            && Attributed(c.ledger, c.applied)
            && (forall id: Uuid :: id != fill.id ==> FeeOf(c.ledger, id) == FeeOf(b.ledger, id))
            && FeeOf(c.ledger, fill.id) == FeeOf(b.ledger, fill.id) - fill.fee
            && AmountsOf(c.ledger, Fee) == AmountsOf(b.ledger, Fee) - fill.fee
  {
    hide SpotCash;
    hide FeeOf;
    hide AmountsOf;
    var key, id, traded := Some(fill.series.digest), Some(fill.id), PostTrade(b, fill, t);
    PostHistory(b, SpotNotional, SpotCash(fill), fill.filledAt, key, id);
    PostHistory(b, RealizedPnl, t.realizedDelta, fill.filledAt, key, id);
    PostHistory(traded, Fee, -fill.fee, fill.filledAt, key, id);
  }

  lemma AppendFill(items: seq<Item>, snap: PositionSnapshot, rows: seq<LedgerRow>)
    requires snap.fillId.Some?
    ensures var now := items + [FillItem(snap)];
            && FeesIn(now, rows) == FeesIn(items, rows) + FeeOf(rows, snap.fillId.value)
            && (forall k :: QuantityAfter(now, k) == if k == snap.series.digest then snap.quantity else QuantityAfter(items, k))
            && (forall k :: RealizedAfter(now, k) == if k == snap.series.digest then snap.realized else RealizedAfter(items, k))
  {
    var now := items + [FillItem(snap)];
    assert now[..|items|] == items;
  }

  lemma ChainGrows(items: seq<Item>, snap: PositionSnapshot, ps: Held, q: PositionState)
    requires Chained(items) && FollowsPositions(items, ps) && snap.fillId.Some?
    requires snap.quantity == q.quantity && snap.realized == q.realized
    requires var k := snap.series.digest;
             (if k in ps then ps[k].quantity else 0.0) == 0.0 ==>
               snap.quantity != 0.0 && snap.realized == (if k in ps then ps[k].realized else 0.0)
    ensures Chained(items + [FillItem(snap)])
    ensures FollowsPositions(items + [FillItem(snap)], ps[snap.series.digest := q])
  {
    AppendFill(items, snap, []);
    assert (items + [FillItem(snap)])[..|items|] == items;
  }

  lemma ApplyFillHistory(b: Book, fill: Fill, sequence: nat)
    requires Good(b) && HistoryLaw(b) && ValidFill(fill) && ApplyFill(b, fill, sequence).raised.None?
    ensures HistoryLaw(ApplyFill(b, fill, sequence).book)
    ensures var c := ApplyFill(b, fill, sequence).book;
            && c.snapshots != [] && var snap := c.snapshots[|c.snapshots| - 1];
            && snap.at == fill.filledAt && snap.sequence == sequence && snap.fillId == Some(fill.id)
            && snap.series.digest == fill.series.digest
            && FillItems(c.snapshots) == FillItems(b.snapshots) + [FillItem(snap)]
  {
    hide LedgerLaw;
    hide CashLaw;
    hide SnapshotLaw;
    hide Keyed;
    hide Applied;
    hide PostFill;
    hide Positions.ApplyFillToPosition;
    hide Positions.Shape;
    hide FeesIn;
    hide Chained;
    hide FollowsPositions;
    hide Attributed;
    PositionForLaw(b, fill.series, fill.mode, fill.filledAt);
    var p := PositionFor(b, fill.series, fill.mode, fill.filledAt);
    var t := Positions.ApplyFillToPosition(p, fill).value;
    Positions.ApplyFillLaw(p, fill);
    FreshFill(p, fill, t);
    PostFillLaw(b, fill, t);
    PostFillHistory(b, fill, t);
    var c := ApplyFill(b, fill, sequence).book;
    var items, snap := FillItems(b.snapshots), c.snapshots[|b.snapshots|];
    assert c.snapshots[..|b.snapshots|] == b.snapshots;
    ChainGrows(items, snap, b.positions, t.state);
    UnknownFee(b.ledger, b.applied, fill.id);
    SameFees(items, b.ledger, c.ledger, b.applied);
    AppendFill(items, snap, c.ledger);
  }

  lemma FreshFill(p: PositionState, fill: Fill, t: Positions.Transition)
    requires ValidPosition(p) && ValidFill(fill) && Positions.ApplyFillToPosition(p, fill) == Success(t)
    ensures p.quantity == 0.0 ==> t.state.quantity != 0.0 && t.state.realized == p.realized
  {
    hide Positions.Move;
    Positions.ApplyFillLaw(p, fill);
  }

  lemma SetMarkHistory(b: Book, series: Series, price: real, at: Time, source: MarkSource, sequence: nat)
    requires HistoryLaw(b) && SetMark(b, series, price, at, source, sequence).raised.None?
    ensures HistoryLaw(SetMark(b, series, price, at, source, sequence).book)
    ensures FillItems(SetMark(b, series, price, at, source, sequence).book.snapshots) == FillItems(b.snapshots)
  {
    var c := SetMark(b, series, price, at, source, sequence).book;
    if series.digest in b.positions {
      assert c.snapshots[..|b.snapshots|] == b.snapshots;
      assert FillItems(c.snapshots) == FillItems(b.snapshots) + [] == FillItems(b.snapshots);
    }
  }

  lemma ApplyFundingHistory(b: Book, payment: FundingPayment)
    requires HistoryLaw(b)
    ensures HistoryLaw(ApplyFunding(b, payment))
  {
    hide FeesIn;
    var paid := b.(totalFunding := b.totalFunding + payment.cashFlow);
    PostHistory(paid, Funding, payment.cashFlow, payment.at, Some(payment.series.digest), None);
    SameFees(FillItems(b.snapshots), b.ledger, ApplyFunding(b, payment).ledger, b.applied);
  }

  // ---------------------------------------------------------------- the sorted timeline

  predicate IsFill(item: Item) {
    item.FillItem?
  }

  /** The engine numbers its events and never goes back in time. */
  predicate Sequenced(items: seq<Item>) {
    forall i, j :: 0 <= i < j < |items| ==>
      ItemTime(items[i]) <= ItemTime(items[j]) && ItemSequence(items[i]) < ItemSequence(items[j])
  }

  lemma BeforeIsTotal()
    ensures TotalPreorder(Before)
  {
  }

  lemma {:induction false} FillItemsAreFills(snaps: seq<PositionSnapshot>)
    ensures forall x :: x in FillItems(snaps) ==> x.FillItem? && ValidItem(x)
    ensures Filter(FillItems(snaps), IsFill) == FillItems(snaps)
    ensures FundsIn(FillItems(snaps)) == 0.0
    decreases |snaps|
  {
    if snaps != [] {
      var front, last := snaps[..|snaps| - 1], snaps[|snaps| - 1];
      FillItemsAreFills(front);
      if last.fillId.Some? {
        FilterAppend(FillItems(front), [FillItem(last)], IsFill);
        SumByAppend(FillItems(front), [FillItem(last)], FundPart);
      } else {
        assert FillItems(front) + [] == FillItems(front);
      }
    }
  }

  lemma {:induction false} FundItemsAreFunds(rows: seq<LedgerRow>, all: seq<LedgerRow>)
    requires forall i :: 0 <= i < |rows| ==> rows[i].entry == Funding ==> rows[i].series.Some?
    ensures forall x :: x in FundItems(rows) ==> x.FundItem? && ValidItem(x) && x.row in rows
    ensures Filter(FundItems(rows), IsFill) == []
    ensures FundsIn(FundItems(rows)) == AmountsOf(rows, Funding)
    ensures FeesIn(FundItems(rows), all) == 0.0
    decreases |rows|
  {
    if rows != [] {
      var front, last := rows[..|rows| - 1], rows[|rows| - 1];
      FundItemsAreFunds(front, all);
      assert forall r :: r in front ==> r in rows;
      if last.entry == Funding {
        FilterAppend(FundItems(front), [FundItem(last)], IsFill);
        SumByAppend(FundItems(front), [FundItem(last)], FundPart);
        SumByAppend(FundItems(front), [FundItem(last)], (x: Item) => FeePart(x, all));
      } else {
        assert FundItems(front) + [] == FundItems(front);
      }
    }
  }

  lemma KeysAreDistinct(snaps: seq<PositionSnapshot>, rows: seq<LedgerRow>)
    requires Numbered(rows) && Sequenced(FillItems(snaps))
    requires forall i :: 0 <= i < |rows| ==> rows[i].entry == Funding ==> rows[i].series.Some?
    ensures DistinctKeys(FundItems(rows) + FillItems(snaps), Before)
  {
    hide FundItems;
    hide FillItems;
    hide Numbered;
    hide Sequenced;
    hide Before;
    var items := FundItems(rows) + FillItems(snaps);
    forall x, y | x in items && y in items && Before(x, y) && Before(y, x)
      ensures x == y
    {
      SameKey(snaps, rows, x, y);
    }
  }

  lemma SameRank(x: Item, y: Item)
    requires Before(x, y) && Before(y, x)
    ensures x.FillItem? == y.FillItem? && ItemSequence(x) == ItemSequence(y)
  {
  }

  lemma SameKey(snaps: seq<PositionSnapshot>, rows: seq<LedgerRow>, x: Item, y: Item)
    requires Numbered(rows) && Sequenced(FillItems(snaps))
    requires forall i :: 0 <= i < |rows| ==> rows[i].entry == Funding ==> rows[i].series.Some?
    requires x in FundItems(rows) + FillItems(snaps) && y in FundItems(rows) + FillItems(snaps) && Before(x, y) && Before(y, x)
    ensures x == y
  {
    hide FundItems;
    hide FillItems;
    hide Numbered;
    hide Sequenced;
    hide AmountsOf;
    hide FeesIn;
    hide FundsIn;
    hide Filter;
    FundItemsAreFunds(rows, rows);
    FillItemsAreFills(snaps);
    SameRank(x, y);
    hide Before;
    if x.FundItem? {
      SameRow(rows, x.row, y.row);
    } else {
      SameFill(FillItems(snaps), x, y);
    }
  }

  lemma SameRow(rows: seq<LedgerRow>, r: LedgerRow, s: LedgerRow)
    requires Numbered(rows) && r in rows && s in rows && r.sequence == s.sequence
    ensures r == s
  {
    var k :| 0 <= k < |rows| && rows[k] == r;
    var l :| 0 <= l < |rows| && rows[l] == s;
  }

  lemma SameFill(fills: seq<Item>, x: Item, y: Item)
    requires Sequenced(fills) && x in fills && y in fills && ItemSequence(x) == ItemSequence(y)
    ensures x == y
  {
    var k :| 0 <= k < |fills| && fills[k] == x;
    var l :| 0 <= l < |fills| && fills[l] == y;
  }

  /** The sorted timeline keeps every item, and its fills in the order in which they happened. */
  lemma TimelineKeeps(snaps: seq<PositionSnapshot>, rows: seq<LedgerRow>)
    requires Numbered(rows) && Sequenced(FillItems(snaps))
    requires forall i :: 0 <= i < |rows| ==> rows[i].entry == Funding ==> rows[i].series.Some?
    ensures var t := Timeline(snaps, rows);
            && Ordered(t, Before)
            && (forall x :: x in t ==> ValidItem(x))
            && Filter(t, IsFill) == FillItems(snaps)
            && FeesIn(t, rows) == FeesIn(FillItems(snaps), rows)
            && FundsIn(t) == AmountsOf(rows, Funding)
  {
    var funds, fills := FundItems(rows), FillItems(snaps);
    var t, fee := Timeline(snaps, rows), (x: Item) => FeePart(x, rows);
    FundItemsAreFunds(rows, rows);
    FillItemsAreFills(snaps);
    KeysAreDistinct(snaps, rows);
    BeforeIsTotal();
    SortOrdered(funds + fills, Before);
    TimelineIsValid(snaps, rows);
    FilterSort(funds + fills, IsFill, Before);
    FilterAppend(funds, fills, IsFill);
    assert Filter(funds + fills, IsFill) == fills;
    FillOrder(fills);
    SortIdle(fills, Before);
    SumBySort(funds + fills, fee, Before);
    SumBySort(funds + fills, FundPart, Before);
    SumByAppend(funds, fills, fee);
    SumByAppend(funds, fills, FundPart);
  }

  lemma {:induction false} FundItemsAreValid(rows: seq<LedgerRow>)
    ensures forall x :: x in FundItems(rows) ==> x.FundItem? && ValidItem(x)
    decreases |rows|
  {
    if rows != [] {
      FundItemsAreValid(rows[..|rows| - 1]);
    }
  }

  lemma TimelineIsValid(snaps: seq<PositionSnapshot>, rows: seq<LedgerRow>)
    ensures forall x :: x in Timeline(snaps, rows) ==> ValidItem(x)
  {
    FundItemsAreValid(rows);
    FillItemsAreFills(snaps);
    SortElements(FundItems(rows) + FillItems(snaps), Before);
    forall x | x in Timeline(snaps, rows)
      ensures ValidItem(x)
    {
      InMultiset(Timeline(snaps, rows), FundItems(rows) + FillItems(snaps), x);
    }
  }

  lemma FillOrder(fills: seq<Item>)
    requires Sequenced(fills) && forall x :: x in fills ==> x.FillItem?
    ensures Ordered(fills, Before) && DistinctKeys(fills, Before)
  {
    forall i, j | 0 <= i < j < |fills|
      ensures Before(fills[i], fills[j])
    {
      assert fills[i] in fills && fills[j] in fills;
    }
    forall x, y | x in fills && y in fills && Before(x, y) && Before(y, x)
      ensures x == y
    {
      SameFill(fills, x, y);
    }
  }

  lemma {:induction false} FillsDecide(items: seq<Item>, key: Digest)
    ensures QuantityAfter(items, key) == QuantityAfter(Filter(items, IsFill), key)
    ensures RealizedAfter(items, key) == RealizedAfter(Filter(items, IsFill), key)
    decreases |items|
  {
    if items != [] {
      var front, last := items[..|items| - 1], items[|items| - 1];
      FillsDecide(front, key);
      assert items == front + [last];
      KeptFills(front, last);
      var kept := Filter(front, IsFill);
      hide Filter;
      LastQuantity(front, last, key);
      LastQuantity(kept, last, key);
      hide QuantityAfter;
      LastRealized(front, last, key);
      LastRealized(kept, last, key);
      hide RealizedAfter;
    }
  }

  lemma KeptFills(front: seq<Item>, last: Item)
    ensures Filter(front + [last], IsFill) == if last.FillItem? then Filter(front, IsFill) + [last] else Filter(front, IsFill)
  {
    FilterAppend(front, [last], IsFill);
    assert [last][1..] == [];
  }

  lemma LastRealized(items: seq<Item>, x: Item, key: Digest)
    ensures RealizedAfter(items + [x], key)
         == if x.FillItem? && x.snap.series.digest == key then x.snap.realized else RealizedAfter(items, key)
  {
    assert (items + [x])[..|items|] == items;
  }

  lemma {:induction false} ChainOfFills(items: seq<Item>)
    requires Chained(Filter(items, IsFill))
    ensures Chained(items)
    decreases |items|
  {
    if items != [] {
      var front, last := items[..|items| - 1], items[|items| - 1];
      FilterAppend(front, [last], IsFill);
      assert items == front + [last];
      var kept := Filter(front, IsFill);
      if last.FillItem? {
        assert (kept + [last])[..|kept|] == kept;
        FillsDecide(front, last.snap.series.digest);
      } else {
        assert kept + [] == kept;
      }
      ChainOfFills(front);
    }
  }

  lemma {:induction false} FoldSucceeds(items: seq<Item>, rows: seq<LedgerRow>, sizes: map<Uuid, real>)
    requires forall x :: x in items ==> ValidItem(x)
    requires forall id :: id in sizes ==> sizes[id] > 0.0
    ensures Fold(items, rows, sizes).Success? <==> forall x :: x in items && x.FillItem? ==> x.snap.fillId.value in sizes
    decreases |items|
  {
    if items != [] {
      var front, last := items[..|items| - 1], items[|items| - 1];
      assert items == front + [last];
      FoldSucceeds(front, rows, sizes);
    }
  }

  lemma SizesArePositive(fills: seq<Fill>)
    requires forall f :: f in fills ==> ValidFill(f)
    ensures forall id :: id in Quantities(fills) ==> Quantities(fills)[id] > 0.0
    ensures forall f :: f in fills ==> f.id in Quantities(fills)
    decreases |fills|
  {
    if fills != [] {
      assert fills[|fills| - 1] in fills;
      SizesArePositive(fills[..|fills| - 1]);
    }
  }

  function FoldBook(b: Book, fills: seq<Fill>): Result<Trips, Error>
    requires forall f :: f in fills ==> ValidFill(f)
  {
    SizesArePositive(fills);
    TimelineIsValid(b.snapshots, b.ledger);
    Fold(Timeline(b.snapshots, b.ledger), b.ledger, Quantities(fills))
  }

  /** Every profit, fee and funding payment of a run is in exactly one completed round trip or one open
      accumulator, except funding that the timeline meets while the series is flat. */
  lemma RoundTripConservation(b: Book, fills: seq<Fill>)
    requires Good(b) && HistoryLaw(b) && Sequenced(FillItems(b.snapshots))
    requires forall f :: f in fills ==> ValidFill(f)
    requires forall id :: id in b.applied ==> exists f :: f in fills && f.id == id
    ensures FoldBook(b, fills).Success?
    ensures var t := FoldBook(b, fills).value;
            SumSeq(t.results) + Total(t.accumulated) + IdleFunding(Timeline(b.snapshots, b.ledger))
            == Total(RealizedParts(b.positions)) + AmountsOf(b.ledger, Fee) + AmountsOf(b.ledger, Funding)
  {
    var line, sizes := Timeline(b.snapshots, b.ledger), Quantities(fills);
    TimelineKeeps(b.snapshots, b.ledger);
    SizesArePositive(fills);
    FoldSucceeds(line, b.ledger, sizes);
    forall x | x in line && x.FillItem?
      ensures x.snap.fillId.value in sizes
    {
      FilterMember(line, IsFill, x);
      assert x in FillItems(b.snapshots);
    }
    ChainOfFills(line);
    FoldConserves(line, b.ledger, sizes);
    var t := Fold(line, b.ledger, sizes).value;
    RealizedTotals(t.realized, line, b);
  }

  lemma RealizedTotals(realized: map<Digest, real>, line: seq<Item>, b: Book)
    requires Filter(line, IsFill) == FillItems(b.snapshots) && FollowsPositions(FillItems(b.snapshots), b.positions)
    requires forall k :: Get(realized, k) == RealizedAfter(line, k)
    ensures Total(realized) == Total(RealizedParts(b.positions))
  {
    forall k
      ensures Get(realized, k) == Get(RealizedParts(b.positions), k)
    {
      FillsDecide(line, k);
    }
    SameTotals(realized, RealizedParts(b.positions));
  }

  // ---------------------------------------------------------------- funding met while flat

  function Earlier(items: seq<Item>, at: Time): seq<Item> {
    Filter(items, (x: Item) => ItemTime(x) < at)
  }

  /** The fills of strictly earlier instants leave the row's series flat. */
  predicate FlatBefore(snaps: seq<PositionSnapshot>, row: LedgerRow) {
    row.series.Some? && QuantityAfter(Earlier(FillItems(snaps), row.at), row.series.value) == 0.0
  }

  function LostAmount(snaps: seq<PositionSnapshot>, row: LedgerRow): real {
    if row.entry == Funding && FlatBefore(snaps, row) then row.amount else 0.0
  }

  /** The funding that no round trip receives, read off the recorded rows alone. */
  function LostFunding(snaps: seq<PositionSnapshot>, rows: seq<LedgerRow>): real {
    SumBy(rows, (row: LedgerRow) => LostAmount(snaps, row))
  }

  function LostPart(snaps: seq<PositionSnapshot>): Item -> real {
    (x: Item) => if x.FundItem? then LostAmount(snaps, x.row) else 0.0
  }

  predicate Recorded(snaps: seq<PositionSnapshot>, rows: seq<LedgerRow>) {
    && Numbered(rows) && Sequenced(FillItems(snaps))
    && forall i :: 0 <= i < |rows| ==> rows[i].entry == Funding ==> rows[i].series.Some?
  }

  /** A funding row misses the round trips if and only if the fills of strictly earlier instants leave its series
      flat. */
  lemma RowIsLost(snaps: seq<PositionSnapshot>, rows: seq<LedgerRow>, n: nat)
    requires Recorded(snaps, rows) && n < |Timeline(snaps, rows)| && Timeline(snaps, rows)[n].FundItem?
    ensures var line := Timeline(snaps, rows); var row := line[n].row;
            && row in rows && row.entry == Funding && row.series.Some?
            && (QuantityAfter(line[..n], row.series.value) == 0.0 <==> FlatBefore(snaps, row))
  {
    var line := Timeline(snaps, rows);
    TimelineKeeps(snaps, rows);
    RowOfItem(snaps, rows, line[n]);
    hide Timeline;
    FillsDecide(line[..n], line[n].row.series.value);
    SplitAtRow(line, n, FillItems(snaps));
    hide Filter;
    hide Ordered;
    hide QuantityAfter;
  }

  lemma {:induction false} LostPrefix(snaps: seq<PositionSnapshot>, rows: seq<LedgerRow>, n: nat)
    requires Recorded(snaps, rows) && n <= |Timeline(snaps, rows)|
    ensures IdleFunding(Timeline(snaps, rows)[..n]) == SumBy(Timeline(snaps, rows)[..n], LostPart(snaps))
  {
    if n > 0 {
      var line := Timeline(snaps, rows);
      LostPrefix(snaps, rows, n - 1);
      if line[n - 1].FundItem? {
        RowIsLost(snaps, rows, n - 1);
      }
      assert line[..n][..n - 1] == line[..n - 1] && line[..n][n - 1] == line[n - 1];
      hide Timeline;
      hide Recorded;
      hide FlatBefore;
      hide QuantityAfter;
    }
  }

  lemma {:induction false} LostOfRows(snaps: seq<PositionSnapshot>, rows: seq<LedgerRow>)
    requires forall i :: 0 <= i < |rows| ==> rows[i].entry == Funding ==> rows[i].series.Some?
    ensures SumBy(FundItems(rows), LostPart(snaps)) == LostFunding(snaps, rows)
    decreases |rows|
  {
    hide FlatBefore;
    if rows != [] {
      var front, last := rows[..|rows| - 1], rows[|rows| - 1];
      LostOfRows(snaps, front);
      SumByAppend(FundItems(front), [FundItem(last)], LostPart(snaps));
      assert [FundItem(last)][..0] == [] && FundItems(front) + [] == FundItems(front);
    }
  }

  lemma {:induction false} FillsLoseNothing(snaps: seq<PositionSnapshot>, fills: seq<Item>)
    requires forall x :: x in fills ==> x.FillItem?
    ensures SumBy(fills, LostPart(snaps)) == 0.0
    decreases |fills|
  {
    hide LostAmount;
    if fills != [] {
      var last := fills[|fills| - 1];
      assert last in fills;
      FillsLoseNothing(snaps, fills[..|fills| - 1]);
    }
  }

  /** What the round trips miss is exactly that funding. */
  lemma IdleIsLost(snaps: seq<PositionSnapshot>, rows: seq<LedgerRow>)
    requires Recorded(snaps, rows)
    ensures IdleFunding(Timeline(snaps, rows)) == LostFunding(snaps, rows)
  {
    var line := Timeline(snaps, rows);
    LostPrefix(snaps, rows, |line|);
    assert line[..|line|] == line;
    SumBySort(FundItems(rows) + FillItems(snaps), LostPart(snaps), Before);
    SumByAppend(FundItems(rows), FillItems(snaps), LostPart(snaps));
    LostOfRows(snaps, rows);
    FillItemsAreFills(snaps);
    FillsLoseNothing(snaps, FillItems(snaps));
    hide LostPart;
    hide LostFunding;
    hide IdleFunding;
    hide SumBy;
    hide Sort;
  }

  /** The round trips hold every profit, fee and funding payment if and only if no funding is lost on balance. */
  lemma ConservedIffNothingLost(b: Book, fills: seq<Fill>)
    requires Good(b) && HistoryLaw(b) && Sequenced(FillItems(b.snapshots))
    requires forall f :: f in fills ==> ValidFill(f)
    requires forall id :: id in b.applied ==> exists f :: f in fills && f.id == id
    ensures FoldBook(b, fills).Success?
    ensures var t, total := FoldBook(b, fills).value,
                            Total(RealizedParts(b.positions)) + AmountsOf(b.ledger, Fee) + AmountsOf(b.ledger, Funding);
            && SumSeq(t.results) + Total(t.accumulated) == total - LostFunding(b.snapshots, b.ledger)
            && (SumSeq(t.results) + Total(t.accumulated) == total <==> LostFunding(b.snapshots, b.ledger) == 0.0)
  {
    RoundTripConservation(b, fills);
    IdleIsLost(b.snapshots, b.ledger);
    hide LostFunding;
    hide IdleFunding;
    hide FoldBook;
  }

  /** Every funding row that pays something found its series held by fills of an earlier instant. */
  predicate Grounded(snaps: seq<PositionSnapshot>, rows: seq<LedgerRow>) {
    forall i :: 0 <= i < |rows| && rows[i].entry == Funding && rows[i].amount != 0.0 ==> !FlatBefore(snaps, rows[i])
  }

  lemma {:induction false} GroundedLosesNothing(snaps: seq<PositionSnapshot>, rows: seq<LedgerRow>)
    requires Grounded(snaps, rows)
    ensures LostFunding(snaps, rows) == 0.0
    decreases |rows|
  {
    hide FlatBefore;
    if rows != [] {
      GroundedLosesNothing(snaps, rows[..|rows| - 1]);
    }
  }

  lemma RowOfItem(snaps: seq<PositionSnapshot>, rows: seq<LedgerRow>, item: Item)
    requires item in Timeline(snaps, rows) && item.FundItem?
    ensures item.row in rows && item.row.entry == Funding && item.row.series.Some?
  {
    SortElements(FundItems(rows) + FillItems(snaps), Before);
    InMultiset(Timeline(snaps, rows), FundItems(rows) + FillItems(snaps), item);
    FillItemsAreFills(snaps);
    assert item in FundItems(rows);
    FundRows(rows, item);
  }

  lemma {:induction false} FundRows(rows: seq<LedgerRow>, item: Item)
    requires item in FundItems(rows)
    ensures item.FundItem? && item.row in rows && item.row.entry == Funding && item.row.series.Some?
    decreases |rows|
  {
    var front, last := rows[..|rows| - 1], rows[|rows| - 1];
    if item in FundItems(front) {
      FundRows(front, item);
    }
  }

  /** In an ordered timeline the fills before a funding row are those of an earlier instant. */
  lemma SplitAtRow(line: seq<Item>, n: nat, fills: seq<Item>)
    requires Ordered(line, Before) && Filter(line, IsFill) == fills && n < |line| && line[n].FundItem?
    ensures Filter(line[..n], IsFill) == Earlier(fills, ItemTime(line[n]))
  {
    hide Ordered;
    var early := (x: Item) => ItemTime(x) < ItemTime(line[n]);
    var f, g := Filter(line[..n], IsFill), Filter(line[n + 1..], IsFill);
    FillsAround(line[..n], line[n], line[n + 1..]);
    assert line == line[..n] + ([line[n]] + line[n + 1..]);
    AllEarlier(line, n);
    AllLater(line, n);
    FilterAppend(f, g, early);
    FilterAll(f, early);
    FilterNone(g, early);
    assert f + [] == f;
  }

  lemma AllEarlier(line: seq<Item>, n: nat)
    requires Ordered(line, Before) && n < |line| && line[n].FundItem?
    ensures forall x :: x in Filter(line[..n], IsFill) ==> ItemTime(x) < ItemTime(line[n])
  {
    hide Ordered;
    hide Filter;
    forall x | x in Filter(line[..n], IsFill)
      ensures ItemTime(x) < ItemTime(line[n])
    {
      FilterMember(line[..n], IsFill, x);
      EarlierMember(line, n, x);
    }
  }

  lemma AllLater(line: seq<Item>, n: nat)
    requires Ordered(line, Before) && n < |line| && line[n].FundItem?
    ensures forall x :: x in Filter(line[n + 1..], IsFill) ==> ItemTime(x) >= ItemTime(line[n])
  {
    hide Ordered;
    hide Filter;
    forall x | x in Filter(line[n + 1..], IsFill)
      ensures ItemTime(x) >= ItemTime(line[n])
    {
      FilterMember(line[n + 1..], IsFill, x);
      LaterMember(line, n, x);
    }
  }

  lemma FillsAround(front: seq<Item>, row: Item, back: seq<Item>)
    requires row.FundItem?
    ensures Filter(front + ([row] + back), IsFill) == Filter(front, IsFill) + Filter(back, IsFill)
  {
    FilterAppend(front, [row] + back, IsFill);
    FilterAppend([row], back, IsFill);
    NoFill(row);
    hide Filter;
    assert [] + Filter(back, IsFill) == Filter(back, IsFill);
  }

  lemma NoFill(row: Item)
    requires row.FundItem?
    ensures Filter([row], IsFill) == []
  {
  }

  lemma EarlierMember(line: seq<Item>, n: nat, x: Item)
    requires Ordered(line, Before) && n < |line| && line[n].FundItem? && x in line[..n] && x.FillItem?
    ensures ItemTime(x) < ItemTime(line[n])
  {
    var i :| 0 <= i < n && line[..n][i] == x;
    assert Before(line[i], line[n]);
  }

  lemma LaterMember(line: seq<Item>, n: nat, x: Item)
    requires Ordered(line, Before) && n < |line| && line[n].FundItem? && x in line[n + 1..] && x.FillItem?
    ensures ItemTime(x) >= ItemTime(line[n])
  {
    var i :| 0 <= i < |line[n + 1..]| && line[n + 1..][i] == x;
    assert line[n + 1 + i] == x && Before(line[n], line[n + 1 + i]);
  }

  /** A later fill grounds nothing less. */
  lemma FillKeepsGrounded(b: Book, fill: Fill, sequence: nat)
    requires Good(b) && HistoryLaw(b) && ValidFill(fill) && ApplyFill(b, fill, sequence).raised.None?
    requires Grounded(b.snapshots, b.ledger)
    requires forall i :: 0 <= i < |b.ledger| && b.ledger[i].entry == Funding ==> b.ledger[i].at <= fill.filledAt
    ensures var c := ApplyFill(b, fill, sequence).book; Grounded(c.snapshots, c.ledger)
  {
    var c := ApplyFill(b, fill, sequence).book;
    ApplyFillHistory(b, fill, sequence);
    var items, x := FillItems(b.snapshots), FillItem(c.snapshots[|c.snapshots| - 1]);
    forall i | 0 <= i < |c.ledger| && c.ledger[i].entry == Funding && c.ledger[i].amount != 0.0 && c.ledger[i].series.Some?
      ensures QuantityAfter(Earlier(FillItems(c.snapshots), c.ledger[i].at), c.ledger[i].series.value) != 0.0
    {
      FundingRowsStay(b, fill, sequence, i);
      FilterAppend(items, [x], (y: Item) => ItemTime(y) < c.ledger[i].at);
      assert Earlier([x], c.ledger[i].at) == [];
      assert Earlier(items, c.ledger[i].at) + [] == Earlier(items, c.ledger[i].at);
    }
  }

  lemma FundingRowsStay(b: Book, fill: Fill, sequence: nat, i: nat)
    requires Keyed(b.positions) && ValidFill(fill) && ApplyFill(b, fill, sequence).raised.None?
    requires i < |ApplyFill(b, fill, sequence).book.ledger| && ApplyFill(b, fill, sequence).book.ledger[i].entry == Funding
    ensures i < |b.ledger| && b.ledger[i] == ApplyFill(b, fill, sequence).book.ledger[i]
  {
    hide Positions.ApplyFillToPosition;
  }

  /** Funding of a position that no fill of the same instant has touched is grounded. */
  lemma FundingIsGrounded(b: Book, payment: FundingPayment)
    requires HistoryLaw(b) && Grounded(b.snapshots, b.ledger)
    requires payment.cashFlow != 0.0 ==>
               payment.series.digest in b.positions && b.positions[payment.series.digest].quantity != 0.0
    requires forall x :: x in FillItems(b.snapshots) && x.snap.series.digest == payment.series.digest ==> x.snap.at < payment.at
    ensures var c := ApplyFunding(b, payment); Grounded(c.snapshots, c.ledger)
  {
    var key := payment.series.digest;
    EarlierOfSeries(FillItems(b.snapshots), key, payment.at);
    var c := ApplyFunding(b, payment);
    forall i | 0 <= i < |c.ledger| && c.ledger[i].entry == Funding && c.ledger[i].amount != 0.0 && c.ledger[i].series.Some?
      ensures QuantityAfter(Earlier(FillItems(c.snapshots), c.ledger[i].at), c.ledger[i].series.value) != 0.0
    {
      if i < |b.ledger| {
        assert c.ledger[i] == b.ledger[i];
      }
    }
  }

  lemma {:induction false} EarlierOfSeries(items: seq<Item>, key: Digest, at: Time)
    requires forall x :: x in items && x.FillItem? && x.snap.series.digest == key ==> x.snap.at < at
    ensures QuantityAfter(Earlier(items, at), key) == QuantityAfter(items, key)
    decreases |items|
  {
    if items != [] {
      var front, last := items[..|items| - 1], items[|items| - 1];
      assert items == front + [last];
      EarlierOfSeries(front, key, at);
      EarlierAppend(front, last, at);
      LastQuantity(front, last, key);
      LastQuantity(Earlier(front, at), last, key);
      hide QuantityAfter;
      hide Earlier;
    }
  }

  lemma LastQuantity(items: seq<Item>, x: Item, key: Digest)
    ensures QuantityAfter(items + [x], key)
         == if x.FillItem? && x.snap.series.digest == key then x.snap.quantity else QuantityAfter(items, key)
  {
    assert (items + [x])[..|items|] == items;
  }

  lemma EarlierAppend(items: seq<Item>, x: Item, at: Time)
    ensures Earlier(items + [x], at) == if ItemTime(x) < at then Earlier(items, at) + [x] else Earlier(items, at)
  {
    FilterAppend(items, [x], (y: Item) => ItemTime(y) < at);
    assert Earlier([x], at) == if ItemTime(x) < at then [x] else [];
    assert Earlier(items, at) + [] == Earlier(items, at);
  }

  // ---------------------------------------------------------------- the source's loops

  method RoundTripPnls(fills: seq<Fill>, snaps: seq<PositionSnapshot>, rows: seq<LedgerRow>)
    returns (r: Result<seq<real>, Error>)
    requires forall f :: f in fills ==> ValidFill(f)
    ensures (forall x :: x in Timeline(snaps, rows) ==> ValidItem(x))
            && (forall id :: id in Quantities(fills) ==> Quantities(fills)[id] > 0.0)
            && var t := Fold(Timeline(snaps, rows), rows, Quantities(fills));
               r == if t.Success? then Success(t.value.results) else Failure(t.error)
  {
    SizesArePositive(fills);
    TimelineIsValid(snaps, rows);
    var sizes: map<Uuid, real> := map[];
    for i := 0 to |fills|
      invariant sizes == Quantities(fills[..i])
    {
      assert fills[..i + 1][..i] == fills[..i];
      sizes := sizes[fills[i].id := fills[i].quantity];
    }
    assert fills[..|fills|] == fills;
    var fees, timeline := Split(snaps, rows);
    timeline := Sort(timeline, Before);
    r := FoldLoop(timeline, rows, fees, sizes);
  }

  /** The fees of each fill, and the unsorted timeline. */
  method Split(snaps: seq<PositionSnapshot>, rows: seq<LedgerRow>) returns (fees: map<Uuid, real>, timeline: seq<Item>)
    ensures forall id :: Get(fees, id) == FeeOf(rows, id)
    ensures timeline == FundItems(rows) + FillItems(snaps)
  {
    fees, timeline := map[], [];
    for i := 0 to |rows|
      invariant forall id :: Get(fees, id) == FeeOf(rows[..i], id)
      invariant timeline == FundItems(rows[..i])
    {
      var row := rows[i];
      assert rows[..i + 1][..i] == rows[..i];
      if row.entry == Fee && row.fillId.Some? {
        fees := fees[row.fillId.value := Get(fees, row.fillId.value) + row.amount];
      } else if row.entry == Funding && row.series.Some? {
        timeline := timeline + [FundItem(row)];
      }
    }
    assert rows[..|rows|] == rows;
    for i := 0 to |snaps|
      invariant timeline == FundItems(rows) + FillItems(snaps[..i])
    {
      assert snaps[..i + 1][..i] == snaps[..i];
      if snaps[i].fillId.Some? {
        timeline := timeline + [FillItem(snaps[i])];
      }
    }
    assert snaps[..|snaps|] == snaps;
  }

  method FoldLoop(items: seq<Item>, rows: seq<LedgerRow>, fees: map<Uuid, real>, sizes: map<Uuid, real>)
    returns (r: Result<seq<real>, Error>)
    requires forall x :: x in items ==> ValidItem(x)
    requires forall id :: id in sizes ==> sizes[id] > 0.0
    requires forall id :: Get(fees, id) == FeeOf(rows, id)
    ensures var t := Fold(items, rows, sizes);
            r == if t.Success? then Success(t.value.results) else Failure(t.error)
  {
    hide Advance;
    var t, i := NO_TRIPS, 0;
    while i < |items|
      invariant 0 <= i <= |items|
      invariant Fold(items[..i], rows, sizes) == Success(t)
    {
      assert items[..i + 1][..i] == items[..i];
      assert ValidItem(items[i]);
      if items[i].FillItem? && items[i].snap.fillId.value !in sizes {
        MissingStops(items, i, rows, sizes);
        return Failure(MissingFill);
      }
      t := AdvanceTrips(t, items[i], rows, fees, sizes);
      i := i + 1;
    }
    assert items[..i] == items;
    r := Success(t.results);
  }

  /** The body of the source's loop, updating its four accumulators. */
  method AdvanceTrips(t: Trips, item: Item, ghost rows: seq<LedgerRow>, fees: map<Uuid, real>, sizes: map<Uuid, real>)
    returns (u: Trips)
    requires ValidItem(item) && (item.FillItem? ==> item.snap.fillId.value in sizes)
    requires forall id :: id in sizes ==> sizes[id] > 0.0
    requires forall id :: Get(fees, id) == FeeOf(rows, id)
    ensures Advance(t, item, rows, sizes) == Success(u)
  {
    hide ClosingFee;
    hide Reverses;
    hide FeeOf;
    var quantities, realized, accumulated, results := t.quantities, t.realized, t.accumulated, t.results;
    var key := ItemKey(item);
    var oldQ := Get(quantities, key);
    if item.FundItem? {
      if oldQ != 0.0 {
        accumulated := accumulated[key := Get(accumulated, key) + item.row.amount];
      }
      return Trips(quantities, realized, accumulated, results);
    }
    var snap := item.snap;
    var newQ, delta, fee := snap.quantity, snap.realized - Get(realized, key), Get(fees, snap.fillId.value);
    if oldQ == 0.0 {
      accumulated := accumulated[key := fee];
    } else if Reverses(oldQ, newQ) {
      var closing := ClosingFee(fee, oldQ, sizes[snap.fillId.value]);
      results := results + [Get(accumulated, key) + delta + closing];
      accumulated := accumulated[key := fee - closing];
    } else {
      var total := Get(accumulated, key) + delta + fee;
      if newQ == 0.0 {
        results := results + [total];
        total := 0.0;
      }
      accumulated := accumulated[key := total];
    }
    quantities := quantities[key := newQ];
    realized := realized[key := snap.realized];
    u := Trips(quantities, realized, accumulated, results);
  }

  lemma MissingStops(items: seq<Item>, i: nat, rows: seq<LedgerRow>, sizes: map<Uuid, real>)
    requires forall x :: x in items ==> ValidItem(x)
    requires forall id :: id in sizes ==> sizes[id] > 0.0
    requires i < |items| && Fold(items[..i], rows, sizes).Success?
    requires ValidItem(items[i]) && items[i].FillItem? && items[i].snap.fillId.value !in sizes
    ensures Fold(items, rows, sizes) == Failure(MissingFill)
  {
    assert items[..i + 1][..i] == items[..i];
    FoldStops(items, i + 1, rows, sizes);
  }

  lemma {:induction false} FoldStops(items: seq<Item>, n: nat, rows: seq<LedgerRow>, sizes: map<Uuid, real>)
    requires forall x :: x in items ==> ValidItem(x)
    requires forall id :: id in sizes ==> sizes[id] > 0.0
    requires n <= |items| && Fold(items[..n], rows, sizes).Failure?
    ensures Fold(items, rows, sizes) == Fold(items[..n], rows, sizes)
    decreases |items|
  {
    if n == |items| {
      assert items[..n] == items;
    } else {
      var front := items[..|items| - 1];
      assert front[..n] == items[..n];
      FoldStops(front, n, rows, sizes);
    }
  }
}
