/** The equity curve's drawdowns (backtesting/engine.py) and the metrics recomputed from the books
    (`calculate_metrics` in backtesting/metrics.py). */
module Metrics {
  import opened Results
  import opened Models
  import opened MapSums
  import opened Accounting
  import opened RoundTrips

  /** Of an `EquityCurvePoint`, what its constructor checks and the metrics read. */
  datatype Point = Point(at: Time, cash: real, equity: real, drawdown: real, fraction: Option<real>, gross: real, net: real)

  predicate ValidPoint(p: Point) {
    p.drawdown >= 0.0 && p.gross >= 0.0 && (p.fraction.Some? ==> 0.0 <= p.fraction.value <= 1.0)
  }

  /** `max((row.equity for row in account_snapshots))`. */
  function PeakEquity(accounts: seq<AccountSnapshot>): real
    requires accounts != []
  {
    var last := accounts[|accounts| - 1].equity;
    if |accounts| == 1 then last else Max(PeakEquity(accounts[..|accounts| - 1]), last)
  }

  /** The curve point after the last snapshot; its constructor refuses a fraction outside [0, 1]. */
  function PointAfter(accounts: seq<AccountSnapshot>): Result<Point, Error>
    requires accounts != []
  {
    var a, peak := accounts[|accounts| - 1], PeakEquity(accounts);
    var drawdown := Max(0.0, peak - a.equity);
    var p := Point(a.at, a.cash, a.equity, drawdown, if peak <= 0.0 then None else Some(drawdown / peak), a.gross, a.net);
    if ValidPoint(p) then Success(p) else Failure(BadDrawdown)
  }

  lemma {:induction false} PeakIsMaximum(accounts: seq<AccountSnapshot>)
    requires accounts != []
    ensures forall i :: 0 <= i < |accounts| ==> accounts[i].equity <= PeakEquity(accounts)
    ensures exists i :: 0 <= i < |accounts| && accounts[i].equity == PeakEquity(accounts)
    decreases |accounts|
  {
    if |accounts| == 1 {
      assert accounts[0].equity == PeakEquity(accounts);
    } else {
      var front := accounts[..|accounts| - 1];
      PeakIsMaximum(front);
      var i :| 0 <= i < |front| && front[i].equity == PeakEquity(front);
      assert accounts[i].equity == front[i].equity;
      assert forall j :: 0 <= j < |front| ==> accounts[j] == front[j];
    }
  }

  /** `best` is the largest fall of equity from any earlier-or-equal point to any point. */
  ghost predicate LargestFall(accounts: seq<AccountSnapshot>, best: real) {
    && (forall i, j :: 0 <= i <= j < |accounts| ==> accounts[i].equity - accounts[j].equity <= best)
    && (exists i, j :: 0 <= i <= j < |accounts| && accounts[i].equity - accounts[j].equity == best)
  }

  /** A point is refused exactly when equity is negative below a positive peak; otherwise it carries the snapshot's
      figures, its drawdown is the fall from the highest equity so far, and its fraction, there unless equity was
      never positive, is that fall's share of the peak. */
  lemma PointLaw(accounts: seq<AccountSnapshot>)
    requires accounts != [] && accounts[|accounts| - 1].gross >= 0.0
    ensures var last, r := accounts[|accounts| - 1], PointAfter(accounts);
            && (r.Failure? <==> last.equity < 0.0 && exists i :: 0 <= i < |accounts| && accounts[i].equity > 0.0)
            && (r.Success? ==> (forall i :: 0 <= i < |accounts| ==> accounts[i].equity - last.equity <= r.value.drawdown)
                               && exists i :: 0 <= i < |accounts| && accounts[i].equity - last.equity == r.value.drawdown)
            && (r.Success? ==> (r.value.fraction.None? <==> forall i :: 0 <= i < |accounts| ==> accounts[i].equity <= 0.0))
            && (r.Success? && r.value.fraction.Some? ==>
                  0.0 <= r.value.fraction.value <= 1.0
                  && exists i :: 0 <= i < |accounts| && r.value.fraction.value * accounts[i].equity == r.value.drawdown)
            && (r.Success? ==> r.value.at == last.at && r.value.cash == last.cash && r.value.equity == last.equity
                               && r.value.gross == last.gross && r.value.net == last.net)
  {
    PeakIsMaximum(accounts);
    var last, peak := accounts[|accounts| - 1].equity, PeakEquity(accounts);
    if peak > 0.0 {
      Fraction(peak - last, peak);
      var i :| 0 <= i < |accounts| && accounts[i].equity == peak;
      assert (peak - last) / peak * accounts[i].equity == peak - last;
    }
  }

  lemma Fraction(x: real, y: real)
    requires y > 0.0 && x >= 0.0
    ensures 0.0 <= x / y
    ensures x / y <= 1.0 <==> x <= y
  {
    assert x / y * y == x;
  }

  predicate Curve(points: seq<Point>, accounts: seq<AccountSnapshot>) {
    && |points| == |accounts|
    && forall j :: 0 <= j < |accounts| ==> PointAfter(accounts[..j + 1]) == Success(points[j])
  }

  function MaxDrawdown(points: seq<Point>): real {
    if points == [] then 0.0
    else
      var last := points[|points| - 1].drawdown;
      if |points| == 1 then last else Max(MaxDrawdown(points[..|points| - 1]), last)
  }

  lemma {:induction false} MaxDrawdownIsMaximum(points: seq<Point>)
    requires points != []
    ensures forall j :: 0 <= j < |points| ==> points[j].drawdown <= MaxDrawdown(points)
    ensures exists j :: 0 <= j < |points| && points[j].drawdown == MaxDrawdown(points)
    decreases |points|
  {
    var front := points[..|points| - 1];
    if front == [] {
      assert points[0].drawdown == MaxDrawdown(points);
    } else {
      MaxDrawdownIsMaximum(front);
      var j :| 0 <= j < |front| && front[j].drawdown == MaxDrawdown(front);
      assert points[j] == front[j] && forall k :: 0 <= k < |front| ==> points[k] == front[k];
    }
  }

  lemma FallAt(points: seq<Point>, accounts: seq<AccountSnapshot>, j: nat)
    requires Curve(points, accounts) && j < |accounts| && accounts[j].gross >= 0.0
    ensures forall i :: 0 <= i <= j ==> accounts[i].equity - accounts[j].equity <= points[j].drawdown
    ensures exists i :: 0 <= i <= j && accounts[i].equity - accounts[j].equity == points[j].drawdown
  {
    var upTo := accounts[..j + 1];
    PointLaw(upTo);
    var i :| 0 <= i < |upTo| && upTo[i].equity - upTo[j].equity == points[j].drawdown;
    assert accounts[i] == upTo[i];
    assert forall k :: 0 <= k <= j ==> accounts[k] == upTo[k];
  }

  /** The reported maximum drawdown, computed from a running peak, is the largest fall over all pairs. */
  lemma MaximumDrawdownIsLargestFall(points: seq<Point>, accounts: seq<AccountSnapshot>)
    requires points != [] && Curve(points, accounts)
    requires forall j :: 0 <= j < |accounts| ==> accounts[j].gross >= 0.0
    ensures LargestFall(accounts, MaxDrawdown(points))
  {
    MaxDrawdownIsMaximum(points);
    forall i, j | 0 <= i <= j < |accounts|
      ensures accounts[i].equity - accounts[j].equity <= MaxDrawdown(points)
    {
      FallAt(points, accounts, j);
    }
    var j :| 0 <= j < |points| && points[j].drawdown == MaxDrawdown(points);
    FallAt(points, accounts, j);
  }

  // ---------------------------------------------------------------- the metrics

  datatype Summary = Summary(gross: real, net: real, realized: real, unrealized: real, fees: real, funding: real,
                             maxDrawdown: real, trips: seq<real>)

  /** What `calculate_metrics` reports, or the reconciliation error it raises. */
  ghost function Summarize(b: Book, points: seq<Point>, fills: seq<Fill>): Result<Summary, Error>
    requires forall f :: f in fills ==> ValidFill(f)
  {
    if points == [] then Failure(NoEquityCurve)
    else
      var realized := Total(RealizedParts(b.positions));
      var unrealized := Total(LatestUnrealized(b.snapshots));
      var fees := -AmountsOf(b.ledger, Fee);
      var funding := AmountsOf(b.ledger, Funding);
      var net := points[|points| - 1].equity - b.initialCash;
      var gross := realized + unrealized + funding;
      if net != gross - fees then Failure(PnlMismatch)
      else
        var trips :- FoldBook(b, fills);
        Success(Summary(gross, net, realized, unrealized, fees, funding, MaxDrawdown(points), trips.results))
  }

  /** The reconciliation check raises exactly when some Spot holding was never marked. */
  lemma MismatchOnlyIfUnmarked(b: Book, points: seq<Point>, fills: seq<Fill>)
    requires Good(b) && points != [] && points[|points| - 1].equity == Equity(b)
    requires forall f :: f in fills ==> ValidFill(f)
    ensures Summarize(b, points, fills) == Failure(PnlMismatch) <==> UnmarkedSpot(b.positions, b.marks)
  {
    hide Good;
    hide Total;
    hide UnmarkedSpot;
    hide FoldBook;
    hide MaxDrawdown;
    hide Equity;
    hide ReportedPnl;
    ReconcilesExactly(b);
    FoldBookErrors(b, fills);
    SameSum(b, points);
  }

  /** The check's two sides, and the book's. */
  lemma SameSum(b: Book, points: seq<Point>)
    requires points != []
    ensures points[|points| - 1].equity - b.initialCash
              == Total(RealizedParts(b.positions)) + Total(LatestUnrealized(b.snapshots)) + AmountsOf(b.ledger, Funding)
                 - -AmountsOf(b.ledger, Fee)
            <==> points[|points| - 1].equity - b.initialCash == ReportedPnl(b)
  {
    hide Total;
    hide AmountsOf;
  }

  lemma FoldBookErrors(b: Book, fills: seq<Fill>)
    requires forall f :: f in fills ==> ValidFill(f)
    ensures FoldBook(b, fills).Failure? ==> FoldBook(b, fills).error == MissingFill
  {
    TimelineIsValid(b.snapshots, b.ledger);
    SizesArePositive(fills);
    FoldErrors(Timeline(b.snapshots, b.ledger), b.ledger, Quantities(fills));
  }

  lemma {:induction false} FoldErrors(items: seq<Item>, rows: seq<LedgerRow>, sizes: map<Uuid, real>)
    requires forall x :: x in items ==> ValidItem(x)
    requires forall id :: id in sizes ==> sizes[id] > 0.0
    ensures Fold(items, rows, sizes).Failure? ==> Fold(items, rows, sizes).error == MissingFill
    decreases |items|
  {
    if items != [] {
      FoldErrors(items[..|items| - 1], rows, sizes);
    }
  }

  method CalculateMetrics(b: Book, points: seq<Point>, fills: seq<Fill>) returns (r: Result<Summary, Error>)
    requires forall f :: f in fills ==> ValidFill(f)
    ensures r == Summarize(b, points, fills)
  {
    hide Total;
    hide Timeline;
    hide Fold;
    hide AmountsOf;
    if points == [] {
      return Failure(NoEquityCurve);
    }
    var realized := SumRealized(b.positions);
    var unrealized := SumLatest(b.snapshots);
    var fees, funding := SumRows(b.ledger);
    var net := points[|points| - 1].equity - b.initialCash;
    var gross := realized + unrealized + funding;
    if net != gross + fees {
      return Failure(PnlMismatch);
    }
    var trips := RoundTripPnls(fills, b.snapshots, b.ledger);
    if trips.Failure? {
      return Failure(trips.error);
    }
    var worst := WorstDrawdown(points);
    r := Success(Summary(gross, net, realized, unrealized, -fees, funding, worst, trips.value));
  }

  method WorstDrawdown(points: seq<Point>) returns (worst: real)
    requires points != []
    ensures worst == MaxDrawdown(points)
  {
    worst := points[0].drawdown;
    for i := 1 to |points|
      invariant worst == MaxDrawdown(points[..i])
    {
      assert points[..i + 1][..i] == points[..i];
      worst := Max(worst, points[i].drawdown);
    }
    assert points[..|points|] == points;
  }

  method SumRealized(ps: Held) returns (sum: real)
    ensures sum == Total(RealizedParts(ps))
  {
    sum := 0.0;
    var keys := ps.Keys;
    ghost var done: Held := map[];
    assert RealizedParts(done) == map[];
    while keys != {}
      invariant keys <= ps.Keys && done.Keys == ps.Keys - keys
      invariant forall k :: k in done ==> done[k] == ps[k]
      invariant sum == Total(RealizedParts(done))
      decreases keys
    {
      var k :| k in keys;
      RealizedStep(done, map[], k, ps[k]);
      sum, keys, done := sum + ps[k].realized, keys - {k}, done[k := ps[k]];
    }
    assert done == ps;
  }

  method SumLatest(snaps: seq<PositionSnapshot>) returns (sum: real)
    ensures sum == Total(LatestUnrealized(snaps))
  {
    var latest: map<Digest, PositionSnapshot> := map[];
    for i := 0 to |snaps|
      invariant latest == Latest(snaps[..i])
    {
      assert snaps[..i + 1][..i] == snaps[..i];
      latest := latest[snaps[i].series.digest := snaps[i]];
    }
    assert snaps[..|snaps|] == snaps;
    sum := 0.0;
    var keys := latest.Keys;
    ghost var done: map<nat, real> := map[];
    while keys != {}
      invariant keys <= latest.Keys && done.Keys == latest.Keys - keys
      invariant forall k :: k in done ==> done[k] == latest[k].unrealized
      invariant sum == Total(done)
      decreases keys
    {
      var k :| k in keys;
      TotalUpdate(done, k, latest[k].unrealized);
      sum, keys, done := sum + latest[k].unrealized, keys - {k}, done[k := latest[k].unrealized];
    }
    assert done == LatestUnrealized(snaps);
  }

  method SumRows(rows: seq<LedgerRow>) returns (fees: real, funding: real)
    ensures fees == AmountsOf(rows, Fee) && funding == AmountsOf(rows, Funding)
  {
    fees, funding := 0.0, 0.0;
    for i := 0 to |rows|
      invariant fees == AmountsOf(rows[..i], Fee) && funding == AmountsOf(rows[..i], Funding)
    {
      assert rows[..i + 1][..i] == rows[..i];
      if rows[i].entry == Fee {
        fees := fees + rows[i].amount;
      }
      if rows[i].entry == Funding {
        funding := funding + rows[i].amount;
      }
    }
    assert rows[..|rows|] == rows;
  }
}
