/** What a round trip is, apart from the fold that computes it: a fill that reverses a position is a fill that closes it
    followed by a fill that opens the other side, and a trip holds what its series booked between its opening and its
    close (`_round_trip_pnls` in backtesting/metrics.py). */
module Reversals {
  import opened Results
  import opened Models
  import opened Sorting
  import opened Accounting
  import opened RoundTrips
  import opened MapSums

  // ---------------------------------------------------------------- one reversing fill

  /** `close` and `open` are `whole` in two pieces: one brings the series to flat and realizes what `whole` does, the
      next takes the series on to where `whole` leaves it. */
  predicate Halves(whole: PositionSnapshot, close: PositionSnapshot, open: PositionSnapshot) {
    && whole.fillId.Some? && close.fillId.Some? && open.fillId.Some?
    && close.series.digest == open.series.digest == whole.series.digest
    && close.at == open.at == whole.at && close.sequence == whole.sequence < open.sequence
    && close.quantity == 0.0 && open.quantity == whole.quantity && close.realized == open.realized == whole.realized
  }

  /** The fee of `whole` is charged to the two pieces by size: the closing piece is as large as the position held. */
  ghost predicate FeeBySize(held: real, whole: Uuid, close: Uuid, open: Uuid, rows: seq<LedgerRow>, sizes: map<Uuid, real>,
                            more: seq<LedgerRow>, parts: map<Uuid, real>) {
    && whole in sizes && close in parts && open in parts
    && FeeOf(more, close) + FeeOf(more, open) == FeeOf(rows, whole)
    && FeeOf(more, close) * sizes[whole] == FeeOf(rows, whole) * Abs(held)
  }

  lemma ShareOfFee(fee: real, held: real, size: real, part: real)
    requires size > 0.0 && part * size == fee * Abs(held)
    ensures ClosingFee(fee, held, size) == part
  {
    var share := Abs(held) / size;
    assert share * size == Abs(held);
    assert (fee * share) * size == fee * (share * size);
    SameQuotient(fee * share, part, size);
  }

  lemma SameQuotient(x: real, y: real, size: real)
    requires size > 0.0 && x * size == y * size
    ensures x == y
  {
    var d := x - y;
    assert d * size == 0.0;
  }

  lemma ReversalStep(t: Trips, whole: PositionSnapshot, close: PositionSnapshot, open: PositionSnapshot, rows: seq<LedgerRow>,
                     sizes: map<Uuid, real>, more: seq<LedgerRow>, parts: map<Uuid, real>)
    requires (forall id :: id in sizes ==> sizes[id] > 0.0) && (forall id :: id in parts ==> parts[id] > 0.0)
    requires Halves(whole, close, open) && Reverses(Get(t.quantities, whole.series.digest), whole.quantity)
    requires FeeBySize(Get(t.quantities, whole.series.digest), whole.fillId.value, close.fillId.value, open.fillId.value, rows, sizes, more, parts)
    ensures var closed := Advance(t, FillItem(close), more, parts);
            && closed.Success?
            && Advance(closed.value, FillItem(open), more, parts) == Advance(t, FillItem(whole), rows, sizes)
            && Advance(t, FillItem(whole), rows, sizes).Success?
  {
    hide FeeBySize;
    hide ClosingFee;
    hide FeeOf;
    hide Reverses;
    hide Advance;
    var key := whole.series.digest;
    var held := Get(t.quantities, key);
    var fee, part := FeeOf(rows, whole.fillId.value), FeeOf(more, close.fillId.value);
    FeeShares(held, whole.fillId.value, close.fillId.value, open.fillId.value, rows, sizes, more, parts);
    NotFlat(held, whole.quantity);
    WholeStep(t, whole, rows, sizes, part);
    CloseStep(t, close, more, parts);
    OpenStep(Advance(t, FillItem(close), more, parts).value, open, more, parts);
    assert t.quantities[key := 0.0][key := open.quantity] == t.quantities[key := whole.quantity];
    assert t.realized[key := close.realized][key := open.realized] == t.realized[key := whole.realized];
    assert t.accumulated[key := 0.0][key := fee - part] == t.accumulated[key := fee - part];
  }

  lemma NotFlat(held: real, now: real)
    requires Reverses(held, now)
    ensures held != 0.0
  {
  }

  lemma FeeShares(held: real, whole: Uuid, close: Uuid, open: Uuid, rows: seq<LedgerRow>, sizes: map<Uuid, real>,
                  more: seq<LedgerRow>, parts: map<Uuid, real>)
    requires (forall id :: id in sizes ==> sizes[id] > 0.0) && FeeBySize(held, whole, close, open, rows, sizes, more, parts)
    ensures whole in sizes && close in parts && open in parts
    ensures ClosingFee(FeeOf(rows, whole), held, sizes[whole]) == FeeOf(more, close)
    ensures FeeOf(more, open) == FeeOf(rows, whole) - FeeOf(more, close)
  {
    hide FeeOf;
    hide ClosingFee;
    hide Abs;
    ShareOfFee(FeeOf(rows, whole), held, sizes[whole], FeeOf(more, close));
  }

  lemma WholeStep(t: Trips, snap: PositionSnapshot, rows: seq<LedgerRow>, sizes: map<Uuid, real>, part: real)
    requires forall id :: id in sizes ==> sizes[id] > 0.0
    requires snap.fillId.Some? && snap.fillId.value in sizes && Reverses(Get(t.quantities, snap.series.digest), snap.quantity)
    requires ClosingFee(FeeOf(rows, snap.fillId.value), Get(t.quantities, snap.series.digest), sizes[snap.fillId.value]) == part
    ensures var key, fee := snap.series.digest, FeeOf(rows, snap.fillId.value);
            Advance(t, FillItem(snap), rows, sizes) ==
              Success(Trips(t.quantities[key := snap.quantity], t.realized[key := snap.realized], t.accumulated[key := fee - part],
                            t.results + [Get(t.accumulated, key) + (snap.realized - Get(t.realized, key)) + part]))
  {
    hide ClosingFee;
    hide FeeOf;
  }

  lemma CloseStep(t: Trips, snap: PositionSnapshot, rows: seq<LedgerRow>, sizes: map<Uuid, real>)
    requires forall id :: id in sizes ==> sizes[id] > 0.0
    requires snap.fillId.Some? && snap.fillId.value in sizes && Get(t.quantities, snap.series.digest) != 0.0 && snap.quantity == 0.0
    ensures var key, fee := snap.series.digest, FeeOf(rows, snap.fillId.value);
            Advance(t, FillItem(snap), rows, sizes) ==
              Success(Trips(t.quantities[key := 0.0], t.realized[key := snap.realized], t.accumulated[key := 0.0],
                            t.results + [Get(t.accumulated, key) + (snap.realized - Get(t.realized, key)) + fee]))
  {
    hide FeeOf;
    assert !Reverses(Get(t.quantities, snap.series.digest), 0.0);
    hide Reverses;
  }

  lemma OpenStep(t: Trips, snap: PositionSnapshot, rows: seq<LedgerRow>, sizes: map<Uuid, real>)
    requires forall id :: id in sizes ==> sizes[id] > 0.0
    requires snap.fillId.Some? && snap.fillId.value in sizes && Get(t.quantities, snap.series.digest) == 0.0
    ensures var key, fee := snap.series.digest, FeeOf(rows, snap.fillId.value);
            Advance(t, FillItem(snap), rows, sizes) ==
              Success(Trips(t.quantities[key := snap.quantity], t.realized[key := snap.realized], t.accumulated[key := fee], t.results))
  {
    hide FeeOf;
  }

  // ---------------------------------------------------------------- in the middle of a timeline

  /** Two items the fold cannot tell apart: the same fill, or funding of one series, instant and amount. */
  predicate Alike(x: Item, y: Item) {
    match x
    case FillItem(_) => y == x
    case FundItem(row) => y.FundItem? && y.row.series == row.series && y.row.at == row.at && y.row.amount == row.amount
  }

  predicate AllAlike(xs: seq<Item>, ys: seq<Item>) {
    |xs| == |ys| && forall i :: 0 <= i < |xs| ==> Alike(xs[i], ys[i])
  }

  /** Both ledgers charge the fills of `items` the same, and both tables give them the same size. */
  ghost predicate SameFills(items: seq<Item>, rows: seq<LedgerRow>, sizes: map<Uuid, real>, more: seq<LedgerRow>, parts: map<Uuid, real>) {
    forall x :: x in items && x.FillItem? && x.snap.fillId.Some? ==> SameCharge(x.snap.fillId.value, rows, sizes, more, parts)
  }

  predicate SameCharge(id: Uuid, rows: seq<LedgerRow>, sizes: map<Uuid, real>, more: seq<LedgerRow>, parts: map<Uuid, real>) {
    && FeeOf(rows, id) == FeeOf(more, id)
    && (id in sizes <==> id in parts) && (id in sizes && id in parts ==> sizes[id] == parts[id])
  }

  lemma AdvanceAlike(t: Trips, x: Item, y: Item, rows: seq<LedgerRow>, sizes: map<Uuid, real>, more: seq<LedgerRow>, parts: map<Uuid, real>)
    requires (forall id :: id in sizes ==> sizes[id] > 0.0) && (forall id :: id in parts ==> parts[id] > 0.0)
    requires ValidItem(x) && Alike(x, y) && (x.FillItem? ==> SameCharge(x.snap.fillId.value, rows, sizes, more, parts))
    ensures ValidItem(y) && Advance(t, y, more, parts) == Advance(t, x, rows, sizes)
  {
    hide ClosingFee;
    hide FeeOf;
    hide Reverses;
  }

  lemma {:induction false} FoldAlike(xs: seq<Item>, ys: seq<Item>, rows: seq<LedgerRow>, sizes: map<Uuid, real>, more: seq<LedgerRow>,
                                     parts: map<Uuid, real>)
    requires (forall id :: id in sizes ==> sizes[id] > 0.0) && (forall id :: id in parts ==> parts[id] > 0.0)
    requires (forall x :: x in xs ==> ValidItem(x)) && (forall y :: y in ys ==> ValidItem(y))
    requires AllAlike(xs, ys) && SameFills(xs, rows, sizes, more, parts)
    ensures Fold(ys, more, parts) == Fold(xs, rows, sizes)
    decreases |xs|
  {
    hide Advance;
    hide SameCharge;
    if xs != [] {
      var n := |xs| - 1;
      var t := Fold(xs[..n], rows, sizes);
      assert xs[n] in xs;
      FoldAlike(xs[..n], ys[..n], rows, sizes, more, parts);
      if t.Success? {
        AdvanceAlike(t.value, xs[n], ys[n], rows, sizes, more, parts);
      }
    }
  }

  lemma {:induction false} FoldQuantity(items: seq<Item>, rows: seq<LedgerRow>, sizes: map<Uuid, real>, key: Digest)
    requires forall x :: x in items ==> ValidItem(x)
    requires forall id :: id in sizes ==> sizes[id] > 0.0
    requires Fold(items, rows, sizes).Success?
    ensures Get(Fold(items, rows, sizes).value.quantities, key) == QuantityAfter(items, key)
    decreases |items|
  {
    if items != [] {
      var n := |items| - 1;
      FoldQuantity(items[..n], rows, sizes, key);
      assert items[n] in items;
      AdvanceQuantity(Fold(items[..n], rows, sizes).value, items[n], rows, sizes, key);
      hide Advance;
    }
  }

  lemma AdvanceQuantity(t: Trips, item: Item, rows: seq<LedgerRow>, sizes: map<Uuid, real>, key: Digest)
    requires ValidItem(item)
    requires forall id :: id in sizes ==> sizes[id] > 0.0
    requires Advance(t, item, rows, sizes).Success?
    ensures Get(Advance(t, item, rows, sizes).value.quantities, key) ==
              if item.FillItem? && item.snap.series.digest == key then item.snap.quantity else Get(t.quantities, key)
  {
    hide ClosingFee;
    hide FeeOf;
    hide Reverses;
  }

  /** The rest of a timeline cannot tell a reversing fill from its two halves. */
  lemma {:induction false} FoldOfHalves(before: seq<Item>, after: seq<Item>, other: seq<Item>, rest: seq<Item>, whole: PositionSnapshot,
                                        close: PositionSnapshot, open: PositionSnapshot, rows: seq<LedgerRow>, sizes: map<Uuid, real>,
                                        more: seq<LedgerRow>, parts: map<Uuid, real>)
    requires (forall id :: id in sizes ==> sizes[id] > 0.0) && (forall id :: id in parts ==> parts[id] > 0.0)
    requires (forall x :: x in before || x in after ==> ValidItem(x)) && (forall y :: y in other || y in rest ==> ValidItem(y))
    requires AllAlike(before, other) && AllAlike(after, rest)
    requires SameFills(before, rows, sizes, more, parts) && SameFills(after, rows, sizes, more, parts)
    requires Halves(whole, close, open)
    requires var held := QuantityAfter(before, whole.series.digest);
             && Reverses(held, whole.quantity)
             && FeeBySize(held, whole.fillId.value, close.fillId.value, open.fillId.value, rows, sizes, more, parts)
    ensures Fold(other + [FillItem(close), FillItem(open)] + rest, more, parts) == Fold(before + [FillItem(whole)] + after, rows, sizes)
    decreases |after|
  {
    hide Advance;
    hide FeeBySize;
    hide Reverses;
    hide SameCharge;
    var one, two := [FillItem(whole)], [FillItem(close), FillItem(open)];
    if after == [] {
      assert before + one + after == before + one && other + two + rest == other + [FillItem(close)] + [FillItem(open)];
      FoldAlike(before, other, rows, sizes, more, parts);
      var t := Fold(before, rows, sizes);
      FoldMore(before, FillItem(whole), rows, sizes);
      FoldMore(other, FillItem(close), more, parts);
      FoldMore(other + [FillItem(close)], FillItem(open), more, parts);
      if t.Success? {
        FoldQuantity(before, rows, sizes, whole.series.digest);
        ReversalStep(t.value, whole, close, open, rows, sizes, more, parts);
      }
    } else {
      var n := |after| - 1;
      assert after[n] in after && rest[n] in rest;
      FoldOfHalves(before, after[..n], other, rest[..n], whole, close, open, rows, sizes, more, parts);
      assert before + one + after == before + one + after[..n] + [after[n]];
      assert other + two + rest == other + two + rest[..n] + [rest[n]];
      FoldMore(before + one + after[..n], after[n], rows, sizes);
      FoldMore(other + two + rest[..n], rest[n], more, parts);
      var t := Fold(before + one + after[..n], rows, sizes);
      if t.Success? {
        AdvanceAlike(t.value, after[n], rest[n], rows, sizes, more, parts);
      }
    }
  }

  lemma FoldMore(items: seq<Item>, item: Item, rows: seq<LedgerRow>, sizes: map<Uuid, real>)
    requires forall x :: x in items + [item] ==> ValidItem(x)
    requires forall id :: id in sizes ==> sizes[id] > 0.0
    ensures item in items + [item] && ValidItem(item)
    ensures Fold(items + [item], rows, sizes) ==
              var t := Fold(items, rows, sizes); if t.Success? then Advance(t.value, item, rows, sizes) else t
  {
    assert (items + [item])[..|items|] == items && (items + [item])[|items|] == item;
    hide Advance;
  }

  // ---------------------------------------------------------------- timelines of two ledgers

  lemma {:induction false} InsertAlike<T, U>(x: T, xs: seq<T>, f: T -> U, le: (T, T) -> bool, over: (U, U) -> bool)
    requires forall y :: y in xs ==> (le(x, y) <==> over(f(x), f(y)))
    ensures Map(Insert(x, xs, le), f) == Insert(f(x), Map(xs, f), over)
  {
    if xs != [] {
      var y := xs[0];
      assert y in xs;
      assert Map(xs, f)[0] == f(y);
      if !le(x, y) {
        InsertAlike(x, xs[1..], f, le, over);
        assert Map(xs, f)[1..] == Map(xs[1..], f);
        assert Map([y] + Insert(x, xs[1..], le), f) == [f(y)] + Map(Insert(x, xs[1..], le), f);
      } else {
        assert Map([x] + xs, f) == [f(x)] + Map(xs, f);
      }
    }
  }

  /** Renaming keys in an order-preserving way commutes with sorting. */
  lemma {:induction false} SortAlike<T, U>(xs: seq<T>, f: T -> U, le: (T, T) -> bool, over: (U, U) -> bool)
    requires forall x, y :: x in xs && y in xs ==> (le(x, y) <==> over(f(x), f(y)))
    ensures Map(Sort(xs, le), f) == Sort(Map(xs, f), over)
  {
    if xs != [] {
      var x, sorted := xs[0], Sort(xs[1..], le);
      assert x in xs;
      SortAlike(xs[1..], f, le, over);
      assert Map(xs, f)[0] == f(x) && Map(xs, f)[1..] == Map(xs[1..], f);
      SortElements(xs[1..], le);
      forall y | y in sorted
        ensures le(x, y) <==> over(f(x), f(y))
      {
        InMultiset(sorted, xs[1..], y);
      }
      InsertAlike(x, sorted, f, le, over);
    }
  }

  /** Funding items in the order of their row numbers, all below `n`. */
  predicate InOrder(funds: seq<Item>, n: nat) {
    && (forall i :: 0 <= i < |funds| ==> funds[i].FundItem? && funds[i].row.sequence < n)
    && (forall i, j :: 0 <= i < j < |funds| ==> funds[i].row.sequence < funds[j].row.sequence)
  }

  lemma {:induction false} FundsRise(rows: seq<LedgerRow>)
    requires forall i :: 0 <= i < |rows| ==> rows[i].sequence == i
    ensures InOrder(FundItems(rows), |rows|)
    decreases |rows|
  {
    if rows != [] {
      var front, last := rows[..|rows| - 1], rows[|rows| - 1];
      FundsRise(front);
      assert last.sequence == |front|;
      if last.entry == Funding && last.series.Some? {
        assert FundItems(rows) == FundItems(front) + [FundItem(last)];
      } else {
        assert FundItems(rows) == FundItems(front);
      }
    }
  }

  predicate AgreeOn(xs: seq<Item>, ys: seq<Item>)
    requires |xs| == |ys|
  {
    forall i, j :: 0 <= i < |xs| && 0 <= j < |xs| ==> (Before(xs[i], xs[j]) <==> Before(ys[i], ys[j]))
  }

  lemma FundsAgree(funds: seq<Item>, others: seq<Item>, fills: seq<Item>, n: nat, m: nat)
    requires InOrder(funds, n) && InOrder(others, m) && AllAlike(funds, others)
    requires forall x :: x in fills ==> x.FillItem?
    ensures AgreeOn(funds + fills, others + fills) && AllAlike(funds + fills, others + fills)
  {
    hide Before;
    var xs, ys := funds + fills, others + fills;
    forall i, j | 0 <= i < |xs| && 0 <= j < |xs|
      ensures Before(xs[i], xs[j]) <==> Before(ys[i], ys[j])
    {
      assert i < |funds| || (xs[i] == fills[i - |funds|] == ys[i] && fills[i - |funds|] in fills);
      assert j < |funds| || (xs[j] == fills[j - |funds|] == ys[j] && fills[j - |funds|] in fills);
      assert i < |funds| ==> Alike(xs[i], ys[i]);
      assert j < |funds| ==> Alike(xs[j], ys[j]);
      PairAgrees(xs[i], xs[j], ys[i], ys[j]);
    }
  }

  lemma PairAgrees(x: Item, y: Item, u: Item, v: Item)
    requires Alike(x, u) && Alike(y, v)
    requires x.FundItem? && y.FundItem? ==>
               && (x.row.sequence < y.row.sequence <==> u.row.sequence < v.row.sequence)
               && (y.row.sequence < x.row.sequence <==> v.row.sequence < u.row.sequence)
    ensures Before(x, y) <==> Before(u, v)
  {
  }

  lemma PairedSort(xs: seq<Item>, ys: seq<Item>)
    requires AllAlike(xs, ys) && AgreeOn(xs, ys)
    ensures AllAlike(Sort(xs, Before), Sort(ys, Before))
  {
    hide Before;
    var pairs := seq(|xs|, i requires 0 <= i < |xs| => (xs[i], ys[i]));
    var le := (p: (Item, Item), q: (Item, Item)) => Before(p.0, q.0);
    var first, second := (p: (Item, Item)) => p.0, (p: (Item, Item)) => p.1;
    forall p, q | p in pairs && q in pairs
      ensures Before(p.0, q.0) <==> Before(p.1, q.1)
    {
      var i :| 0 <= i < |pairs| && pairs[i] == p;
      var j :| 0 <= j < |pairs| && pairs[j] == q;
    }
    SortAlike(pairs, first, le, Before);
    SortAlike(pairs, second, le, Before);
    assert Map(pairs, first) == xs && Map(pairs, second) == ys;
    var sorted := Sort(pairs, le);
    SortElements(pairs, le);
    forall i | 0 <= i < |sorted|
      ensures Alike(sorted[i].0, sorted[i].1)
    {
      var p := sorted[i];
      assert p in sorted;
      InMultiset(sorted, pairs, p);
    }
  }

  /** Ledgers whose funding rows say the same give timelines that say the same, however the rows are numbered. */
  lemma TimelinesAlike(snaps: seq<PositionSnapshot>, rows: seq<LedgerRow>, more: seq<LedgerRow>)
    requires Numbered(rows) && Numbered(more) && AllAlike(FundItems(rows), FundItems(more))
    ensures AllAlike(Timeline(snaps, rows), Timeline(snaps, more))
  {
    FillItemsAreFills(snaps);
    FundsRise(rows);
    FundsRise(more);
    var funds, others, fills := FundItems(rows), FundItems(more), FillItems(snaps);
    FundsAgree(funds, others, fills, |rows|, |more|);
    PairedSort(funds + fills, others + fills);
    hide Sort;
    hide AllAlike;
    hide InOrder;
  }

  // ---------------------------------------------------------------- the two timelines

  lemma {:induction false} FillItemsAppend(xs: seq<PositionSnapshot>, ys: seq<PositionSnapshot>)
    ensures FillItems(xs + ys) == FillItems(xs) + FillItems(ys)
    decreases |ys|
  {
    if ys == [] {
      assert xs + ys == xs;
    } else {
      FillItemsAppend(xs, ys[..|ys| - 1]);
      assert (xs + ys)[..|xs + ys| - 1] == xs + ys[..|ys| - 1];
    }
  }

  /** Where the items that are not the whole fill lie: funding, fills before it, or fills after both halves. */
  ghost predicate Aside(y: Item, whole: PositionSnapshot, open: PositionSnapshot) {
    || y.FundItem?
    || (ItemTime(y) <= whole.at && ItemSequence(y) < whole.sequence)
    || (open.at <= ItemTime(y) && open.sequence < ItemSequence(y))
  }

  lemma HalvesFit(y: Item, whole: PositionSnapshot, close: PositionSnapshot, open: PositionSnapshot)
    requires Halves(whole, close, open) && Aside(y, whole, open)
    ensures Before(y, FillItem(whole)) ==> Before(y, FillItem(close)) && Before(y, FillItem(open))
    ensures Before(FillItem(whole), y) ==> Before(FillItem(close), y) && Before(FillItem(open), y)
  {
  }

  lemma StillOrdered(before: seq<Item>, after: seq<Item>, whole: PositionSnapshot, close: PositionSnapshot, open: PositionSnapshot)
    requires Ordered(before + [FillItem(whole)] + after, Before) && Halves(whole, close, open)
    requires forall y :: y in before || y in after ==> Aside(y, whole, open)
    ensures Ordered(before + [FillItem(close), FillItem(open)] + after, Before)
  {
    var line, now := before + [FillItem(whole)] + after, before + [FillItem(close), FillItem(open)] + after;
    var n := |before|;
    assert Before(FillItem(close), FillItem(open));
    hide Halves;
    hide Aside;
    forall i, j | 0 <= i < j < |now|
      ensures Before(now[i], now[j])
    {
      assert i < n ==> now[i] == line[i] && line[i] in before;
      assert j < n ==> now[j] == line[j];
      assert i >= n + 2 ==> now[i] == line[i - 1] && line[i - 1] == after[i - n - 2];
      assert j >= n + 2 ==> now[j] == line[j - 1] && line[j - 1] == after[j - n - 2] && line[j - 1] in after;
      if i < n && n <= j < n + 2 {
        assert Before(line[i], line[n]);
        HalvesFit(line[i], whole, close, open);
      } else if n <= i < n + 2 <= j {
        assert Before(line[n], line[j - 1]);
        HalvesFit(line[j - 1], whole, close, open);
      }
    }
  }

  lemma FillsAside(a: seq<Item>, b: seq<Item>, whole: PositionSnapshot, close: PositionSnapshot, open: PositionSnapshot, y: Item)
    requires Halves(whole, close, open) && Sequenced(a + [FillItem(close), FillItem(open)] + b)
    requires y in a || y in b
    ensures Aside(y, whole, open)
  {
    var fills := a + [FillItem(close), FillItem(open)] + b;
    if y in a {
      var i :| 0 <= i < |a| && a[i] == y;
      assert fills[i] == y && fills[|a|] == FillItem(close);
    } else {
      var i :| 0 <= i < |b| && b[i] == y;
      assert fills[|a| + 2 + i] == y && fills[|a| + 1] == FillItem(open);
    }
  }

  lemma WholeIsSequenced(a: seq<Item>, b: seq<Item>, whole: PositionSnapshot, close: PositionSnapshot, open: PositionSnapshot)
    requires Halves(whole, close, open) && Sequenced(a + [FillItem(close), FillItem(open)] + b)
    ensures Sequenced(a + [FillItem(whole)] + b)
  {
    var two, one := a + [FillItem(close), FillItem(open)] + b, a + [FillItem(whole)] + b;
    forall i, j | 0 <= i < j < |one|
      ensures ItemTime(one[i]) <= ItemTime(one[j]) && ItemSequence(one[i]) < ItemSequence(one[j])
    {
      var k, l := if i <= |a| then i else i + 1, if j <= |a| then j else j + 1;
      assert ItemTime(two[k]) == ItemTime(one[i]) && ItemSequence(two[k]) == ItemSequence(one[i]);
      assert ItemTime(two[l]) == ItemTime(one[j]) && ItemSequence(two[l]) == ItemSequence(one[j]);
    }
  }

  lemma TakeOutOne(line: seq<Item>, pool: seq<Item>, a: seq<Item>, x: Item, b: seq<Item>) returns (before: seq<Item>, after: seq<Item>)
    requires multiset(line) == multiset(pool + (a + [x] + b))
    ensures line == before + [x] + after && multiset(before + after) == multiset(pool + (a + b))
  {
    var all := pool + (a + [x] + b);
    assert all[|pool| + |a|] == x;
    InMultiset(line, all, x);
    before, after := Around(line, x);
    Regroup(pool, a, x, b);
    Cancel(before, x, after, pool + a, b);
  }

  lemma Regroup(pool: seq<Item>, a: seq<Item>, x: Item, b: seq<Item>)
    ensures pool + (a + [x] + b) == (pool + a) + [x] + b && pool + (a + b) == (pool + a) + b
  {
  }

  lemma Around(line: seq<Item>, x: Item) returns (before: seq<Item>, after: seq<Item>)
    requires x in line
    ensures line == before + [x] + after
  {
    var n :| 0 <= n < |line| && line[n] == x;
    before, after := line[..n], line[n + 1..];
  }

  lemma Cancel(before: seq<Item>, x: Item, after: seq<Item>, front: seq<Item>, back: seq<Item>)
    requires multiset(before + [x] + after) == multiset(front + [x] + back)
    ensures multiset(before + after) == multiset(front + back)
  {
    OneInside(before, x, after);
    OneInside(front, x, back);
    assert multiset(before + after) == multiset(before + [x] + after) - multiset{x};
  }

  lemma OneInside(before: seq<Item>, x: Item, after: seq<Item>)
    ensures multiset(before + [x] + after) == multiset(before + after) + multiset{x}
  {
  }

  lemma FillsOf(before: seq<Item>, x: Item, after: seq<Item>, a: seq<Item>, b: seq<Item>)
    requires x.FillItem? && Filter(before + [x] + after, IsFill) == a + [x] + b
    requires Sequenced(a + [x] + b)
    ensures Filter(before, IsFill) == a
  {
    FilterAppend(before + [x], after, IsFill);
    FilterAppend(before, [x], IsFill);
    OneFill(x);
    var f, g := Filter(before, IsFill), Filter(after, IsFill);
    hide Filter;
    var all := a + [x] + b;
    assert all == f + [x] + g;
    assert all[|f|] == x && all[|a|] == x;
    assert |f| == |a|;
    assert f == all[..|f|] && a == all[..|a|];
  }

  lemma OneFill(x: Item)
    requires x.FillItem?
    ensures Filter([x], IsFill) == [x]
  {
  }

  /** In the timeline the two halves stand side by side, where the whole fill would. */
  lemma TimelineOfHalves(a: seq<PositionSnapshot>, b: seq<PositionSnapshot>, whole: PositionSnapshot, close: PositionSnapshot,
                         open: PositionSnapshot, rows: seq<LedgerRow>) returns (before: seq<Item>, after: seq<Item>)
    requires Halves(whole, close, open) && Recorded(a + [close, open] + b, rows)
    ensures Timeline(a + [whole] + b, rows) == before + [FillItem(whole)] + after
    ensures Timeline(a + [close, open] + b, rows) == before + [FillItem(close), FillItem(open)] + after
    ensures Filter(before, IsFill) == FillItems(a)
    ensures multiset(before + after) == multiset(FundItems(rows) + (FillItems(a) + FillItems(b)))
  {
    var x, c, o := FillItem(whole), FillItem(close), FillItem(open);
    var funds, fa, fb := FundItems(rows), FillItems(a), FillItems(b);
    SplitFills(a, b, whole, close, open);
    WholeIsSequenced(fa, fb, whole, close, open);
    TimelineKeeps(a + [whole] + b, rows);
    SortElements(funds + (fa + [x] + fb), Before);
    var line := Timeline(a + [whole] + b, rows);
    before, after := TakeOutOne(line, funds, fa, x, fb);
    FillsOf(before, x, after, fa, fb);
    FundItemsAreValid(rows);
    forall y | y in before || y in after
      ensures Aside(y, whole, open)
    {
      InMultiset(before + after, funds + (fa + fb), y);
      if y !in funds {
        FillsAside(fa, fb, whole, close, open, y);
      }
    }
    StillOrdered(before, after, whole, close, open);
    KeysAreDistinct(a + [close, open] + b, rows);
    SortedHalves(before, after, funds, fa, c, o, fb);
  }

  lemma SplitFills(a: seq<PositionSnapshot>, b: seq<PositionSnapshot>, whole: PositionSnapshot, close: PositionSnapshot, open: PositionSnapshot)
    requires Halves(whole, close, open)
    ensures FillItems(a + [whole] + b) == FillItems(a) + [FillItem(whole)] + FillItems(b)
    ensures FillItems(a + [close, open] + b) == FillItems(a) + [FillItem(close), FillItem(open)] + FillItems(b)
  {
    FillItemsAppend(a + [whole], b);
    FillItemsAppend(a, [whole]);
    FillItemsAppend(a + [close, open], b);
    FillItemsAppend(a, [close, open]);
    assert [close, open][..1] == [close] && [close][..0] == [] && [whole][..0] == [];
    assert FillItems([whole]) == [FillItem(whole)];
    assert FillItems([close]) == [FillItem(close)];
    assert FillItems([close, open]) == [FillItem(close), FillItem(open)];
  }

  lemma SortedHalves(before: seq<Item>, after: seq<Item>, funds: seq<Item>, a: seq<Item>, c: Item, o: Item, b: seq<Item>)
    requires multiset(before + after) == multiset(funds + (a + b))
    requires Ordered(before + [c, o] + after, Before) && DistinctKeys(funds + (a + [c, o] + b), Before)
    ensures Sort(funds + (a + [c, o] + b), Before) == before + [c, o] + after
  {
    var all, line := funds + (a + [c, o] + b), before + [c, o] + after;
    assert multiset(all) == multiset(funds + (a + b)) + multiset{c, o};
    assert multiset(line) == multiset(before + after) + multiset{c, o};
    BeforeIsTotal();
    forall x, y | x in line && y in line && Before(x, y) && Before(y, x)
      ensures x == y
    {
      InMultiset(line, all, x);
      InMultiset(line, all, y);
    }
    SortUnique(line, all, Before);
    SortIdle(line, Before);
  }

  /** The trips of a run's records, or the exception that computing them raises. */
  function Settle(fills: seq<Fill>, snaps: seq<PositionSnapshot>, rows: seq<LedgerRow>): Result<Trips, Error>
    requires forall f :: f in fills ==> ValidFill(f)
  {
    SizesArePositive(fills);
    TimelineIsValid(snaps, rows);
    Fold(Timeline(snaps, rows), rows, Quantities(fills))
  }

  /** Writing a reversal as a close and an open changes no round trip: the results, and what is left open, are the same
      whether the records hold one fill that takes a series through flat, or two that meet there, with the fee shared by
      size and everything else charged, sized and funded alike. */
  lemma ReversalIsTwoFills(a: seq<PositionSnapshot>, b: seq<PositionSnapshot>, whole: PositionSnapshot, close: PositionSnapshot,
                           open: PositionSnapshot, rows: seq<LedgerRow>, fills: seq<Fill>, more: seq<LedgerRow>, pieces: seq<Fill>)
    requires (forall f :: f in fills ==> ValidFill(f)) && (forall f :: f in pieces ==> ValidFill(f))
    requires Halves(whole, close, open) && Recorded(a + [close, open] + b, rows)
    requires Numbered(more) && AllAlike(FundItems(rows), FundItems(more))
    requires SameFills(FillItems(a) + FillItems(b), rows, Quantities(fills), more, Quantities(pieces))
    requires var held := QuantityAfter(FillItems(a), whole.series.digest);
             && held * whole.quantity < 0.0
             && FeeBySize(held, whole.fillId.value, close.fillId.value, open.fillId.value, rows, Quantities(fills), more, Quantities(pieces))
    ensures Settle(pieces, a + [close, open] + b, more) == Settle(fills, a + [whole] + b, rows)
  {
    hide FeeBySize;
    hide SameCharge;
    SizesArePositive(fills);
    SizesArePositive(pieces);
    var two := a + [close, open] + b;
    var before, after := TimelineOfHalves(a, b, whole, close, open, rows);
    TimelinesAlike(two, rows, more);
    var line, n := Timeline(two, more), |before|;
    var other, rest := line[..n], line[n + 2..];
    CutAlike(before, FillItem(close), FillItem(open), after, line);
    TimelineIsValid(a + [whole] + b, rows);
    TimelineIsValid(two, more);
    FillsDecide(before, whole.series.digest);
    AsideFills(before, after, a, b, rows);
    hide Timeline;
    FoldOfHalves(before, after, other, rest, whole, close, open, rows, Quantities(fills), more, Quantities(pieces));
    hide Fold;
  }

  lemma CutAlike(before: seq<Item>, c: Item, o: Item, after: seq<Item>, line: seq<Item>)
    requires AllAlike(before + [c, o] + after, line) && c.FillItem? && o.FillItem?
    ensures |line| >= |before| + 2
    ensures var other, rest := line[..|before|], line[|before| + 2..];
            line == other + [c, o] + rest && AllAlike(before, other) && AllAlike(after, rest)
  {
    var all, n := before + [c, o] + after, |before|;
    assert all[n] == c && all[n + 1] == o;
    assert Alike(all[n], line[n]) && Alike(all[n + 1], line[n + 1]);
    var other, rest := line[..n], line[n + 2..];
    forall i | 0 <= i < n
      ensures Alike(before[i], other[i])
    {
      assert all[i] == before[i] && Alike(all[i], line[i]);
    }
    forall i | 0 <= i < |after|
      ensures Alike(after[i], rest[i])
    {
      assert all[n + 2 + i] == after[i] && Alike(all[n + 2 + i], line[n + 2 + i]);
    }
  }

  lemma AsideFills(before: seq<Item>, after: seq<Item>, a: seq<PositionSnapshot>, b: seq<PositionSnapshot>, rows: seq<LedgerRow>)
    requires multiset(before + after) == multiset(FundItems(rows) + (FillItems(a) + FillItems(b)))
    ensures forall x :: (x in before || x in after) && x.FillItem? ==> x in FillItems(a) + FillItems(b)
  {
    FundItemsAreValid(rows);
    forall x | (x in before || x in after) && x.FillItem?
      ensures x in FillItems(a) + FillItems(b)
    {
      InMultiset(before + after, FundItems(rows) + (FillItems(a) + FillItems(b)), x);
    }
  }

  // ---------------------------------------------------------------- what a trip holds

  /** Two quantities on one side of flat. */
  predicate SameSide(x: real, y: real) {
    (x > 0.0 && y > 0.0) || (x < 0.0 && y < 0.0)
  }

  lemma SideLaw(held: real, now: real)
    requires held != 0.0
    ensures Reverses(held, now) || now == 0.0 <==> !SameSide(held, now)
    ensures !(Reverses(held, now) && now == 0.0)
  {
  }

  /** The item takes its series to flat or beyond it. */
  predicate Ends(front: seq<Item>, item: Item) {
    item.FillItem? && var held := QuantityAfter(front, item.snap.series.digest); held != 0.0 && !SameSide(held, item.snap.quantity)
  }

  function EndsIn(items: seq<Item>): nat {
    if items == [] then 0
    else
      var front, last := items[..|items| - 1], items[|items| - 1];
      EndsIn(front) + (if Ends(front, last) then 1 else 0)
  }

  lemma StepResults(t: Trips, item: Item, rows: seq<LedgerRow>, sizes: map<Uuid, real>)
    requires forall id :: id in sizes ==> sizes[id] > 0.0
    requires ValidItem(item) && Advance(t, item, rows, sizes).Success?
    ensures var u := Advance(t, item, rows, sizes).value; var held := Get(t.quantities, ItemKey(item));
            if item.FillItem? && held != 0.0 && !SameSide(held, item.snap.quantity) then
              |u.results| == |t.results| + 1 && u.results[..|t.results|] == t.results
            else u.results == t.results
  {
    var held := Get(t.quantities, ItemKey(item));
    if item.FillItem? && held != 0.0 {
      SideLaw(held, item.snap.quantity);
    }
    hide Reverses;
    hide ClosingFee;
    hide FeeOf;
    hide SameSide;
  }

  /** There are as many round trips as fills that end one. */
  lemma {:induction false} TripCount(items: seq<Item>, rows: seq<LedgerRow>, sizes: map<Uuid, real>)
    requires forall x :: x in items ==> ValidItem(x)
    requires forall id :: id in sizes ==> sizes[id] > 0.0
    requires Fold(items, rows, sizes).Success?
    ensures |Fold(items, rows, sizes).value.results| == EndsIn(items)
    decreases |items|
  {
    hide Advance;
    if items != [] {
      var front, last := items[..|items| - 1], items[|items| - 1];
      assert last in items;
      TripCount(front, rows, sizes);
      var t := Fold(front, rows, sizes).value;
      FoldQuantity(front, rows, sizes, ItemKey(last));
      StepResults(t, last, rows, sizes);
    }
  }

  lemma {:induction false} FoldRealized(items: seq<Item>, rows: seq<LedgerRow>, sizes: map<Uuid, real>, key: Digest)
    requires forall x :: x in items ==> ValidItem(x)
    requires forall id :: id in sizes ==> sizes[id] > 0.0
    requires Fold(items, rows, sizes).Success?
    ensures Get(Fold(items, rows, sizes).value.realized, key) == RealizedAfter(items, key)
    decreases |items|
  {
    if items != [] {
      var n := |items| - 1;
      FoldRealized(items[..n], rows, sizes, key);
      assert items[n] in items;
      AdvanceRealized(Fold(items[..n], rows, sizes).value, items[n], rows, sizes, key);
      hide Advance;
    }
  }

  lemma AdvanceRealized(t: Trips, item: Item, rows: seq<LedgerRow>, sizes: map<Uuid, real>, key: Digest)
    requires ValidItem(item)
    requires forall id :: id in sizes ==> sizes[id] > 0.0
    requires Advance(t, item, rows, sizes).Success?
    ensures Get(Advance(t, item, rows, sizes).value.realized, key) ==
              if item.FillItem? && item.snap.series.digest == key then item.snap.realized else Get(t.realized, key)
  {
    hide ClosingFee;
    hide FeeOf;
    hide Reverses;
  }

  /** What one item books for a series: the fee of a fill, the amount of a funding row. */
  function Booked(item: Item, rows: seq<LedgerRow>, key: Digest): real {
    if ItemSeries(item) == key then FeePart(item, rows) + FundPart(item) else 0.0
  }

  function BookedIn(items: seq<Item>, rows: seq<LedgerRow>, key: Digest): real {
    if items == [] then 0.0 else BookedIn(items[..|items| - 1], rows, key) + Booked(items[|items| - 1], rows, key)
  }

  lemma BookedMore(items: seq<Item>, item: Item, rows: seq<LedgerRow>, key: Digest)
    ensures BookedIn(items + [item], rows, key) == BookedIn(items, rows, key) + Booked(item, rows, key)
  {
    assert (items + [item])[..|items|] == items;
  }

  /** From the state `front` leaves, the series stays on the side of `open` all along `middle`. */
  predicate Stays(front: seq<Item>, open: real, middle: seq<Item>, key: Digest) {
    forall n :: 0 <= n <= |middle| ==> SameSide(open, QuantityAfter(front + middle[..n], key))
  }

  lemma OpenPart(t: Trips, snap: PositionSnapshot, rows: seq<LedgerRow>, sizes: map<Uuid, real>)
    requires forall id :: id in sizes ==> sizes[id] > 0.0
    requires snap.fillId.Some? && Get(t.quantities, snap.series.digest) == 0.0 && Advance(t, FillItem(snap), rows, sizes).Success?
    ensures Get(Advance(t, FillItem(snap), rows, sizes).value.accumulated, snap.series.digest) == Booked(FillItem(snap), rows, snap.series.digest)
  {
    hide FeeOf;
  }

  lemma MiddlePart(t: Trips, item: Item, rows: seq<LedgerRow>, sizes: map<Uuid, real>, key: Digest)
    requires forall id :: id in sizes ==> sizes[id] > 0.0
    requires ValidItem(item) && Advance(t, item, rows, sizes).Success? && Get(t.quantities, key) != 0.0
    requires item.FillItem? && item.snap.series.digest == key ==> SameSide(Get(t.quantities, key), item.snap.quantity)
    ensures var u := Advance(t, item, rows, sizes).value;
            Get(u.accumulated, key) == Get(t.accumulated, key) + (Get(u.realized, key) - Get(t.realized, key)) + Booked(item, rows, key)
  {
    if item.FillItem? && item.snap.series.digest == key {
      SideLaw(Get(t.quantities, key), item.snap.quantity);
    }
    hide FeeOf;
    hide Reverses;
    hide ClosingFee;
    hide SameSide;
  }

  /** While a trip is open its accumulator holds what the series has booked since it opened. */
  lemma {:induction false} OpenTrip(before: seq<Item>, open: PositionSnapshot, middle: seq<Item>, rows: seq<LedgerRow>, sizes: map<Uuid, real>)
    requires forall x :: x in before + [FillItem(open)] + middle ==> ValidItem(x)
    requires forall id :: id in sizes ==> sizes[id] > 0.0
    requires open.fillId.Some? && QuantityAfter(before, open.series.digest) == 0.0
    requires Stays(before + [FillItem(open)], open.quantity, middle, open.series.digest)
    requires Fold(before + [FillItem(open)] + middle, rows, sizes).Success?
    ensures var key, first := open.series.digest, before + [FillItem(open)];
            Get(Fold(first + middle, rows, sizes).value.accumulated, key)
            == RealizedAfter(first + middle, key) - RealizedAfter(first, key) + BookedIn([FillItem(open)] + middle, rows, key)
    decreases |middle|
  {
    hide Advance;
    hide Booked;
    var x, key, first := FillItem(open), open.series.digest, before + [FillItem(open)];
    if middle == [] {
      assert first + middle == first && [x] + middle == [x] && [x][..0] == [];
      FoldMore(before, x, rows, sizes);
      FoldQuantity(before, rows, sizes, key);
      OpenPart(Fold(before, rows, sizes).value, open, rows, sizes);
    } else {
      var n := |middle| - 1;
      var now, item := first + middle[..n], middle[n];
      assert first + middle == now + [item] && [x] + middle == [x] + middle[..n] + [item];
      FoldMore(now, item, rows, sizes);
      assert Stays(first, open.quantity, middle[..n], key) by {
        forall m | 0 <= m <= n
          ensures SameSide(open.quantity, QuantityAfter(first + middle[..n][..m], key))
        {
          assert middle[..n][..m] == middle[..m];
        }
      }
      OpenTrip(before, open, middle[..n], rows, sizes);
      var t := Fold(now, rows, sizes).value;
      FoldQuantity(now, rows, sizes, key);
      FoldRealized(now, rows, sizes, key);
      FoldRealized(now + [item], rows, sizes, key);
      LastQuantity(now, item, key);
      assert middle[..n + 1] == middle;
      BothOnSide(first, open.quantity, middle, key);
      MiddlePart(t, item, rows, sizes, key);
      BookedMore([x] + middle[..n], item, rows, key);
    }
  }

  lemma BothOnSide(first: seq<Item>, open: real, middle: seq<Item>, key: Digest)
    requires Stays(first, open, middle, key) && middle != []
    ensures var n := |middle| - 1; var q, r := QuantityAfter(first + middle[..n], key), QuantityAfter(first + middle, key);
            q != 0.0 && SameSide(q, r)
  {
    assert middle[..|middle|] == middle;
    hide QuantityAfter;
  }

  /** A round trip: opened from flat, held on one side, and ended.  Its result is the profit the series realized, the
      fees it paid and the funding it received or paid from its opening to its end. */
  lemma TripIsItsBookings(before: seq<Item>, open: PositionSnapshot, middle: seq<Item>, close: PositionSnapshot, rows: seq<LedgerRow>,
                          sizes: map<Uuid, real>)
    requires var line := before + [FillItem(open)] + middle + [FillItem(close)];
             (forall x :: x in line ==> ValidItem(x)) && (forall id :: id in sizes ==> sizes[id] > 0.0) && Fold(line, rows, sizes).Success?
    requires QuantityAfter(before, open.series.digest) == 0.0
    requires Stays(before + [FillItem(open)], open.quantity, middle, open.series.digest)
    requires close.series.digest == open.series.digest && close.quantity == 0.0
    ensures var first, key := before + [FillItem(open)], open.series.digest; var line := first + middle + [FillItem(close)];
            && Fold(first + middle, rows, sizes).Success?
            && Fold(line, rows, sizes).value.results
               == Fold(first + middle, rows, sizes).value.results
                  + [RealizedAfter(line, key) - RealizedAfter(first, key)
                     + BookedIn([FillItem(open)] + middle + [FillItem(close)], rows, key)]
  {
    hide Advance;
    var o, c, key, first := FillItem(open), FillItem(close), open.series.digest, before + [FillItem(open)];
    hide Stays;
    hide Fold;
    hide QuantityAfter;
    hide BookedIn;
    hide RealizedAfter;
    var now := first + middle;
    assert before + [o] + middle == now;
    forall x | x in now
      ensures ValidItem(x)
    {
      assert x in now + [c];
    }
    FoldMore(now, c, rows, sizes);
    assert now[|before|] == o && o in now + [c];
    OpenTrip(before, open, middle, rows, sizes);
    var t := Fold(now, rows, sizes).value;
    FoldQuantity(now, rows, sizes, key);
    FoldRealized(now, rows, sizes, key);
    StaysToTheEnd(first, open.quantity, middle, key);
    hide *;
    ClosePart(t, close, rows, sizes);
    LastRealized(now, c, key);
    BookedMore([o] + middle, c, rows, key);
  }

  lemma StaysToTheEnd(first: seq<Item>, open: real, middle: seq<Item>, key: Digest)
    requires Stays(first, open, middle, key)
    ensures QuantityAfter(first + middle, key) != 0.0
  {
    assert middle[..|middle|] == middle;
    hide QuantityAfter;
  }

  lemma ClosePart(t: Trips, snap: PositionSnapshot, rows: seq<LedgerRow>, sizes: map<Uuid, real>)
    requires forall id :: id in sizes ==> sizes[id] > 0.0
    requires snap.fillId.Some? && snap.quantity == 0.0 && Get(t.quantities, snap.series.digest) != 0.0
    requires Advance(t, FillItem(snap), rows, sizes).Success?
    ensures var key := snap.series.digest;
            Advance(t, FillItem(snap), rows, sizes).value.results
            == t.results + [Get(t.accumulated, key) + (snap.realized - Get(t.realized, key)) + Booked(FillItem(snap), rows, key)]
  {
    SideLaw(Get(t.quantities, snap.series.digest), 0.0);
    hide FeeOf;
    hide Reverses;
    hide ClosingFee;
  }

  /** The size of a fill is its quantity; of two fills with one identity the later counts. */
  lemma {:induction false} SizesLaw(fills: seq<Fill>, i: nat)
    requires i < |fills| && forall j :: i < j < |fills| ==> fills[j].id != fills[i].id
    ensures fills[i].id in Quantities(fills) && Quantities(fills)[fills[i].id] == fills[i].quantity
    decreases |fills|
  {
    if i < |fills| - 1 {
      var front := fills[..|fills| - 1];
      assert forall j :: i < j < |front| ==> front[j] == fills[j];
      SizesLaw(front, i);
    }
  }
}
