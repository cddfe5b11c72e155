/** Point-in-time alpha inputs: availability, the series an alpha sees, and as-of evaluation
    (alpha/identity.py, alpha/input_validation.py, alpha/engine.py). */
module Alpha {
  import opened Results
  import opened Models
  import opened Sorting
  import Gaps

  datatype DataType = Ohlcv | FundingRates

  /** `availableAt` is a bar's close time or a funding time; `digest` hashes the stable economic content, which does
      not include the `source` observations. */
  datatype Record = Record(series: Digest, kind: DataType, availableAt: Time, openAt: Time, final: bool, grounded: bool,
                           digest: nat, source: nat)

  datatype Failure = NoRecords | MixedSeries | NotEligible | DuplicateTime | DuplicateOpen | WrongLength | WrongTimestamp
                   | FutureSource | DuplicateIdentity

  /** One output of an alpha for one record. */
  datatype Point = Point(at: Time, sources: seq<Time>, score: real)

  type AlphaFunction = seq<Record> -> seq<Point>

  /** A hashed input row: everything its sort key looks at. */
  datatype Row = Row(series: Digest, at: Time, digest: nat)

  /** `inputs` stands for the eligible-input hash, on which, with the constants of the request, the value's identity
      is computed. */
  datatype Value = Value(series: Digest, asOf: Time, inputs: seq<Row>, score: real, lookback: Option<(Time, Time)>)

  // ---------------------------------------------------------------- the series

  function ByAvailability(): (Record, Record) -> bool {
    (x: Record, y: Record) => x.availableAt <= y.availableAt
  }

  predicate Admissible(r: Record) {
    match r.kind
    case Ohlcv => r.final
    case FundingRates => r.grounded
  }

  function Times(rs: seq<Record>): seq<Time> {
    Map(rs, (r: Record) => r.availableAt)
  }

  function Opens(rs: seq<Record>): seq<Time> {
    Map(rs, (r: Record) => r.openAt)
  }

  predicate OneSeries(rs: seq<Record>) {
    forall i, j :: 0 <= i < |rs| && 0 <= j < |rs| ==> rs[i].series == rs[j].series && rs[i].kind == rs[j].kind
  }

  /** What `PointInTimeSeries.__init__` demands of its records. */
  predicate SeriesOk(rs: seq<Record>) {
    && rs != [] && OneSeries(rs) && (forall i :: 0 <= i < |rs| ==> Admissible(rs[i]))
    && Distinct(Times(rs)) && (rs[0].kind == Ohlcv ==> Distinct(Opens(rs)))
  }

  function SeriesOf(rs: seq<Record>): Result<seq<Record>, Failure> {
    if rs == [] then Failure(NoRecords)
    else if !OneSeries(rs) then Failure(MixedSeries)
    else if exists i :: 0 <= i < |rs| && !Admissible(rs[i]) then Failure(NotEligible)
    else if !Distinct(Times(rs)) then Failure(DuplicateTime)
    else if rs[0].kind == Ohlcv && !Distinct(Opens(rs)) then Failure(DuplicateOpen)
    else Success(Sort(rs, ByAvailability()))
  }

  function Selects(series: Digest, kind: DataType): Record -> bool {
    (r: Record) => r.kind == kind && (r.kind == Ohlcv ==> r.final) && r.series == series
  }

  /** `prepare_point_in_time_series` for one series identity. */
  function Prepare(dataset: seq<Record>, series: Digest, kind: DataType): Result<seq<Record>, Failure> {
    SeriesOf(Filter(dataset, Selects(series, kind)))
  }

  function AvailableBy(asOf: Time): Record -> bool {
    (r: Record) => r.availableAt <= asOf
  }

  /** `eligible_as_of`. */
  function EligibleAsOf(rs: seq<Record>, asOf: Time): Result<seq<Record>, Failure> {
    SeriesOf(Filter(rs, AvailableBy(asOf)))
  }

  function RowOf(r: Record): Row {
    Row(r.series, r.availableAt, r.digest)
  }

  predicate RowAtMost(x: Row, y: Row) {
    x.series < y.series || (x.series == y.series && (x.at < y.at || (x.at == y.at && x.digest <= y.digest)))
  }

  /** The rows hashed by `eligible_input_sha256`. */
  function InputRows(rs: seq<Record>, asOf: Time): seq<Row> {
    Sort(Map(Filter(rs, AvailableBy(asOf)), RowOf), RowAtMost)
  }

  /** The rows hashed by `AlphaDataSet.dataset_sha256`. */
  function DatasetRows(dataset: seq<Record>): seq<Row> {
    Sort(Map(dataset, RowOf), RowAtMost)
  }

  // ---------------------------------------------------------------- as-of evaluation

  datatype Window = Window(start: Time, end: Time)

  predicate AllBy(times: seq<Time>, asOf: Time) {
    forall i :: 0 <= i < |times| ==> times[i] <= asOf
  }

  /** The first and the last of the source times, in order. */
  function Lookback(sources: seq<Time>): Option<(Time, Time)> {
    var times := Sort(sources, Gaps.AtMost());
    if times == [] then None else Some((times[0], times[|times| - 1]))
  }

  /** One series of an as-of request: a value, nothing outside the window, or a failure. */
  function EvaluateOne(alpha: AlphaFunction, dataset: seq<Record>, series: Digest, kind: DataType, asOf: Time, w: Window)
    : Result<Option<Value>, Failure>
  {
    var full :- Prepare(dataset, series, kind);
    var eligible :- EligibleAsOf(full, asOf);
    var computed := alpha(eligible);
    if |computed| != |eligible| || eligible == [] then Failure(WrongLength)
    else
      var last, point := eligible[|eligible| - 1], computed[|computed| - 1];
      if point.at != last.availableAt then Failure(WrongTimestamp)
      else if !AllBy(point.sources, asOf) then Failure(FutureSource)
      else if !(w.start <= asOf < w.end) then Success(None)
      else Success(Some(Value(series, asOf, InputRows(full, asOf), point.score, Lookback(point.sources))))
  }

  datatype Progress = Progress(values: seq<Value>, failures: seq<(Digest, Failure)>, seen: set<Digest>)

  function Advance(p: Progress, series: Digest, r: Result<Option<Value>, Failure>): Progress {
    match r
    case Failure(f) => p.(failures := p.failures + [(series, f)])
    case Success(None) => p
    case Success(Some(v)) =>
      if series in p.seen then p.(failures := p.failures + [(series, DuplicateIdentity)])
      else p.(values := p.values + [v], seen := p.seen + {series})
  }

  /** The loop over the requested series, failures collected. */
  function EvaluateAll(alpha: AlphaFunction, dataset: seq<Record>, identities: seq<Digest>, kind: DataType, asOf: Time, w: Window): Progress {
    if identities == [] then Progress([], [], {})
    else
      var last := identities[|identities| - 1];
      Advance(EvaluateAll(alpha, dataset, identities[..|identities| - 1], kind, asOf, w), last,
              EvaluateOne(alpha, dataset, last, kind, asOf, w))
  }

  // ---------------------------------------------------------------- the past is fixed

  lemma RowsAreTotal()
    ensures TotalPreorder(RowAtMost) && forall x: Row, y: Row :: RowAtMost(x, y) && RowAtMost(y, x) ==> x == y
  {
  }

  lemma AvailabilityIsTotal()
    ensures TotalPreorder(ByAvailability())
  {
  }

  lemma SameRows(xs: seq<Record>, ys: seq<Record>)
    requires multiset(xs) == multiset(ys)
    ensures Sort(Map(xs, RowOf), RowAtMost) == Sort(Map(ys, RowOf), RowAtMost)
  {
    RowsAreTotal();
    MapElements(xs, ys, RowOf);
    SortUnique(Map(xs, RowOf), Map(ys, RowOf), RowAtMost);
  }

  lemma OneSeriesOf(xs: seq<Record>, ys: seq<Record>)
    requires multiset(xs) == multiset(ys) && OneSeries(xs)
    ensures OneSeries(ys)
  {
    forall i, j | 0 <= i < |ys| && 0 <= j < |ys|
      ensures ys[i].series == ys[j].series && ys[i].kind == ys[j].kind
    {
      InMultiset(xs, ys, ys[i]);
      InMultiset(xs, ys, ys[j]);
      var k :| 0 <= k < |xs| && xs[k] == ys[i];
      var l :| 0 <= l < |xs| && xs[l] == ys[j];
    }
  }

  lemma AdmissibleOf(xs: seq<Record>, ys: seq<Record>)
    requires multiset(xs) == multiset(ys) && forall i :: 0 <= i < |xs| ==> Admissible(xs[i])
    ensures forall i :: 0 <= i < |ys| ==> Admissible(ys[i])
  {
    forall i | 0 <= i < |ys|
      ensures Admissible(ys[i])
    {
      InMultiset(xs, ys, ys[i]);
      var k :| 0 <= k < |xs| && xs[k] == ys[i];
    }
  }

  lemma DistinctTimesSort(xs: seq<Record>)
    requires Distinct(Times(xs))
    ensures DistinctKeys(xs, ByAvailability())
  {
    forall x, y | x in xs && y in xs && ByAvailability()(x, y) && ByAvailability()(y, x)
      ensures x == y
    {
      var i :| 0 <= i < |xs| && xs[i] == x;
      var j :| 0 <= j < |xs| && xs[j] == y;
      assert Times(xs)[i] == Times(xs)[j];
    }
  }

  lemma SeriesOkRearranged(xs: seq<Record>, ys: seq<Record>)
    requires multiset(xs) == multiset(ys) && SeriesOk(xs)
    ensures SeriesOk(ys) && Sort(xs, ByAvailability()) == Sort(ys, ByAvailability())
  {
    assert |xs| == |multiset(xs)| == |multiset(ys)| == |ys|;
    OneSeriesOf(xs, ys);
    AdmissibleOf(xs, ys);
    MapElements(xs, ys, (r: Record) => r.availableAt);
    MapElements(xs, ys, (r: Record) => r.openAt);
    DistinctElements(Times(xs), Times(ys));
    AvailabilityIsTotal();
    DistinctTimesSort(xs);
    SortUnique(xs, ys, ByAvailability());
    InMultiset(xs, ys, ys[0]);
    var k :| 0 <= k < |xs| && xs[k] == ys[0];
    assert xs[0].kind == xs[k].kind;
    if xs[0].kind == Ohlcv {
      DistinctElements(Opens(xs), Opens(ys));
    }
  }

  lemma SeriesSucceeds(rs: seq<Record>)
    ensures SeriesOf(rs).Success? <==> SeriesOk(rs)
    ensures SeriesOk(rs) ==> SeriesOf(rs) == Success(Sort(rs, ByAvailability()))
  {
    hide Sort;
    hide Distinct;
    hide OneSeries;
    hide Admissible;
  }

  lemma SelectThenFilter(dataset: seq<Record>, series: Digest, kind: DataType, asOf: Time)
    ensures Filter(Filter(dataset, Selects(series, kind)), AvailableBy(asOf))
         == Filter(Filter(dataset, AvailableBy(asOf)), Selects(series, kind))
  {
    FiltersCommute(dataset, Selects(series, kind), AvailableBy(asOf));
  }

  lemma {:induction false} FiltersCommute(xs: seq<Record>, f: Record -> bool, g: Record -> bool)
    ensures Filter(Filter(xs, f), g) == Filter(Filter(xs, g), f)
  {
    if xs != [] {
      FiltersCommute(xs[1..], f, g);
      FilterAppend(if f(xs[0]) then [xs[0]] else [], Filter(xs[1..], f), g);
      FilterAppend(if g(xs[0]) then [xs[0]] else [], Filter(xs[1..], g), f);
    }
  }

  lemma {:induction false} DistinctFilter(xs: seq<Record>, keep: Record -> bool, f: Record -> Time)
    requires Distinct(Map(xs, f))
    ensures Distinct(Map(Filter(xs, keep), f))
  {
    if xs != [] {
      var rest := Filter(xs[1..], keep);
      assert Map(xs, f)[1..] == Map(xs[1..], f);
      assert Distinct(Map(xs[1..], f)) by {
        forall i, j | 0 <= i < j < |xs[1..]|
          ensures Map(xs[1..], f)[i] != Map(xs[1..], f)[j]
        {
          assert Map(xs, f)[i + 1] != Map(xs, f)[j + 1];
        }
      }
      DistinctFilter(xs[1..], keep, f);
      forall j | 0 <= j < |rest|
        ensures f(xs[0]) != f(rest[j])
      {
        FilterMember(xs[1..], keep, rest[j]);
        assert rest[j] in rest;
        var k :| 0 <= k < |xs[1..]| && xs[1..][k] == rest[j];
        assert Map(xs, f)[0] != Map(xs, f)[k + 1];
      }
      if keep(xs[0]) {
        HeadDistinct(f(xs[0]), Map(rest, f));
        assert Map([xs[0]] + rest, f) == [f(xs[0])] + Map(rest, f);
      } else {
        assert Filter(xs, keep) == rest;
      }
    }
  }

  lemma HeadDistinct(x: Time, xs: seq<Time>)
    requires Distinct(xs) && forall j :: 0 <= j < |xs| ==> x != xs[j]
    ensures Distinct([x] + xs)
  {
  }

  lemma FilteredFrom(xs: seq<Record>, keep: Record -> bool, i: nat) returns (k: nat)
    requires i < |Filter(xs, keep)|
    ensures k < |xs| && xs[k] == Filter(xs, keep)[i]
  {
    var x := Filter(xs, keep)[i];
    FilterMember(xs, keep, x);
    k :| 0 <= k < |xs| && xs[k] == x;
  }

  lemma FilteredPair(xs: seq<Record>, keep: Record -> bool, i: nat, j: nat)
    requires i < |Filter(xs, keep)| && j < |Filter(xs, keep)| && OneSeries(xs)
    requires forall k :: 0 <= k < |xs| ==> Admissible(xs[k])
    ensures var part := Filter(xs, keep); part[i].series == part[j].series && part[i].kind == part[j].kind && Admissible(part[i])
  {
    var k := FilteredFrom(xs, keep, i);
    var l := FilteredFrom(xs, keep, j);
  }

  /** Any part of a good series is empty or a good series. */
  lemma PartIsOk(xs: seq<Record>, keep: Record -> bool)
    requires SeriesOk(xs)
    ensures Filter(xs, keep) == [] || SeriesOk(Filter(xs, keep))
  {
    var part := Filter(xs, keep);
    if part != [] {
      DistinctFilter(xs, keep, (r: Record) => r.availableAt);
      forall i, j | 0 <= i < |part| && 0 <= j < |part|
        ensures part[i].series == part[j].series && part[i].kind == part[j].kind && Admissible(part[i])
      {
        FilteredPair(xs, keep, i, j);
      }
      var k := FilteredFrom(xs, keep, 0);
      if part[0].kind == Ohlcv {
        DistinctFilter(xs, keep, (r: Record) => r.openAt);
      }
      hide Filter;
    }
  }

  lemma SortedSeries(rs: seq<Record>)
    requires rs == [] || SeriesOk(rs)
    ensures SeriesOf(Sort(rs, ByAvailability())) == SeriesOf(rs)
  {
    SortElements(rs, ByAvailability());
    var sorted := Sort(rs, ByAvailability());
    SameOutcome(rs, sorted);
  }

  lemma SameOutcome(xs: seq<Record>, ys: seq<Record>)
    requires multiset(xs) == multiset(ys) && (xs == [] || SeriesOk(xs))
    ensures SeriesOf(xs) == SeriesOf(ys)
  {
    assert |xs| == |multiset(xs)| == |multiset(ys)| == |ys|;
    if xs != [] {
      SeriesSucceeds(xs);
      SeriesSucceeds(ys);
      SeriesOkRearranged(xs, ys);
    } else {
      assert ys == xs;
    }
    hide SeriesOf;
  }

  /** The records of the past, of one series, however they are reached: filtering the prepared series by
      availability gives the series of the filtered dataset. */
  lemma EligibleIsPast(dataset: seq<Record>, series: Digest, kind: DataType, asOf: Time)
    requires Prepare(dataset, series, kind).Success?
    ensures var past := Filter(Filter(dataset, AvailableBy(asOf)), Selects(series, kind)); var full := Prepare(dataset, series, kind).value;
            && EligibleAsOf(full, asOf) == SeriesOf(past)
            && multiset(Filter(full, AvailableBy(asOf))) == multiset(past)
            && (past == [] || SeriesOk(past))
  {
    var chosen := Filter(dataset, Selects(series, kind));
    var past := Filter(chosen, AvailableBy(asOf));
    SeriesSucceeds(chosen);
    AvailabilityIsTotal();
    DistinctTimesSort(chosen);
    FilterSort(chosen, AvailableBy(asOf), ByAvailability());
    SelectThenFilter(dataset, series, kind, asOf);
    SortElements(past, ByAvailability());
    PartIsOk(chosen, AvailableBy(asOf));
    SortedSeries(past);
    hide Filter;
    hide Sort;
    hide SeriesOf;
    hide SeriesOk;
  }

  /** Two datasets that tell the same past. */
  ghost predicate SamePast(d: seq<Record>, e: seq<Record>, asOf: Time) {
    multiset(Filter(d, AvailableBy(asOf))) == multiset(Filter(e, AvailableBy(asOf)))
  }

  /** The series can be prepared, or has no records at all: what is known only later adds nothing invalid. */
  predicate Sane(d: seq<Record>, series: Digest, kind: DataType) {
    Prepare(d, series, kind).Success? || Prepare(d, series, kind) == Failure(NoRecords)
  }

  /** The eligible series and the hashed input rows of an as-of request depend on the past alone. */
  lemma EligibleSeriesIsFixed(d: seq<Record>, e: seq<Record>, series: Digest, kind: DataType, asOf: Time)
    requires SamePast(d, e, asOf) && Prepare(d, series, kind).Success? && Prepare(e, series, kind).Success?
    ensures EligibleAsOf(Prepare(d, series, kind).value, asOf) == EligibleAsOf(Prepare(e, series, kind).value, asOf)
    ensures InputRows(Prepare(d, series, kind).value, asOf) == InputRows(Prepare(e, series, kind).value, asOf)
  {
    var x := Filter(Filter(d, AvailableBy(asOf)), Selects(series, kind));
    var y := Filter(Filter(e, AvailableBy(asOf)), Selects(series, kind));
    EligibleIsPast(d, series, kind, asOf);
    EligibleIsPast(e, series, kind, asOf);
    FilterElements(Filter(d, AvailableBy(asOf)), Filter(e, AvailableBy(asOf)), Selects(series, kind));
    SameRows(Filter(Prepare(d, series, kind).value, AvailableBy(asOf)), Filter(Prepare(e, series, kind).value, AvailableBy(asOf)));
    SameOutcome(x, y);
    hide Prepare;
    hide EligibleAsOf;
    hide SeriesOf;
    hide SeriesOk;
    hide Filter;
  }

  lemma EmptyPast(d: seq<Record>, e: seq<Record>, series: Digest, kind: DataType, asOf: Time)
    requires SamePast(d, e, asOf) && Prepare(d, series, kind).Success? && Prepare(e, series, kind) == Failure(NoRecords)
    ensures EligibleAsOf(Prepare(d, series, kind).value, asOf) == Failure(NoRecords)
  {
    var x := Filter(Filter(d, AvailableBy(asOf)), Selects(series, kind));
    var y := Filter(Filter(e, AvailableBy(asOf)), Selects(series, kind));
    EligibleIsPast(d, series, kind, asOf);
    NothingPast(e, series, kind, asOf);
    FilterElements(Filter(d, AvailableBy(asOf)), Filter(e, AvailableBy(asOf)), Selects(series, kind));
    hide Filter;
    hide Prepare;
    assert |x| == |multiset(x)| == |multiset(y)| == |y|;
    assert SeriesOf([]) == Failure(NoRecords);
  }

  lemma NothingPast(e: seq<Record>, series: Digest, kind: DataType, asOf: Time)
    requires Prepare(e, series, kind) == Failure(NoRecords)
    ensures Filter(Filter(e, AvailableBy(asOf)), Selects(series, kind)) == []
  {
    SelectThenFilter(e, series, kind, asOf);
    var chosen := Filter(e, Selects(series, kind));
    SeriesSucceeds(chosen);
    NoRecordsMeansNone(chosen);
  }

  lemma NoRecordsMeansNone(rs: seq<Record>)
    requires SeriesOf(rs) == Failure(NoRecords)
    ensures rs == []
  {
  }

  /** Future data cannot change a past value: the score, the hashed inputs and so the identity of an as-of value,
      or its failure, are the same for any two datasets with the same past, for any alpha. */
  lemma FutureCannotChangePast(alpha: AlphaFunction, d: seq<Record>, e: seq<Record>, series: Digest, kind: DataType, asOf: Time, w: Window)
    requires SamePast(d, e, asOf) && Sane(d, series, kind) && Sane(e, series, kind)
    ensures EvaluateOne(alpha, d, series, kind, asOf, w) == EvaluateOne(alpha, e, series, kind, asOf, w)
  {
    hide Prepare;
    hide EligibleAsOf;
    hide InputRows;
    hide SamePast;
    if Prepare(d, series, kind).Success? && Prepare(e, series, kind).Success? {
      EligibleSeriesIsFixed(d, e, series, kind, asOf);
    } else if Prepare(d, series, kind).Success? {
      EmptyPast(d, e, series, kind, asOf);
    } else if Prepare(e, series, kind).Success? {
      SamePastBack(d, e, asOf);
      EmptyPast(e, d, series, kind, asOf);
    }
  }

  lemma SamePastBack(d: seq<Record>, e: seq<Record>, asOf: Time)
    requires SamePast(d, e, asOf)
    ensures SamePast(e, d, asOf)
  {
  }

  /** So is the whole list of values and failures. */
  lemma {:induction false} FutureCannotChangeRun(alpha: AlphaFunction, d: seq<Record>, e: seq<Record>, identities: seq<Digest>, kind: DataType,
                                                 asOf: Time, w: Window)
    requires SamePast(d, e, asOf) && forall i :: 0 <= i < |identities| ==> Sane(d, identities[i], kind) && Sane(e, identities[i], kind)
    ensures EvaluateAll(alpha, d, identities, kind, asOf, w) == EvaluateAll(alpha, e, identities, kind, asOf, w)
    decreases |identities|
  {
    hide EvaluateOne;
    hide Advance;
    hide Sane;
    hide SamePast;
    if identities != [] {
      FutureCannotChangeRun(alpha, d, e, identities[..|identities| - 1], kind, asOf, w);
      FutureCannotChangePast(alpha, d, e, identities[|identities| - 1], kind, asOf, w);
    }
  }

  // ---------------------------------------------------------------- which point is the value

  /** `known` are the records of the series that were available by `asOf`, in the order in which they became so. */
  ghost predicate Known(known: seq<Record>, dataset: seq<Record>, series: Digest, kind: DataType, asOf: Time) {
    && (forall i, j :: 0 <= i < j < |known| ==> known[i].availableAt < known[j].availableAt)
    && forall x: Record :: x in known <==>
         x in dataset && x.series == series && x.kind == kind && (kind == Ohlcv ==> x.final) && x.availableAt <= asOf
  }

  lemma {:induction false} SameRising(xs: seq<Record>, ys: seq<Record>)
    requires forall i, j :: 0 <= i < j < |xs| ==> xs[i].availableAt < xs[j].availableAt
    requires forall i, j :: 0 <= i < j < |ys| ==> ys[i].availableAt < ys[j].availableAt
    requires forall x: Record :: x in xs <==> x in ys
    ensures xs == ys
    decreases |xs|
  {
    assert |ys| > 0 ==> ys[0] in ys;
    if xs != [] {
      var x := xs[0];
      assert x in xs;
      SameFirst(xs, ys);
      RestRises(xs);
      RestRises(ys);
      forall r: Record
        ensures r in xs[1..] <==> r in ys[1..]
      {
      }
      SameRising(xs[1..], ys[1..]);
      assert xs == [x] + xs[1..] && ys == [x] + ys[1..];
    }
  }

  lemma SameFirst(xs: seq<Record>, ys: seq<Record>)
    requires forall i, j :: 0 <= i < j < |xs| ==> xs[i].availableAt < xs[j].availableAt
    requires forall i, j :: 0 <= i < j < |ys| ==> ys[i].availableAt < ys[j].availableAt
    requires xs != [] && forall x: Record :: x in xs <==> x in ys
    ensures ys != [] && xs[0] == ys[0]
  {
    var x := xs[0];
    assert x in xs;
    var i :| 0 <= i < |ys| && ys[i] == x;
    var y := ys[0];
    assert y in ys;
    var j :| 0 <= j < |xs| && xs[j] == y;
  }

  lemma RestRises(xs: seq<Record>)
    requires xs != [] && forall i, j :: 0 <= i < j < |xs| ==> xs[i].availableAt < xs[j].availableAt
    ensures forall i, j :: 0 <= i < j < |xs[1..]| ==> xs[1..][i].availableAt < xs[1..][j].availableAt
    ensures forall r: Record :: r in xs[1..] <==> r in xs && r != xs[0]
  {
    assert xs == [xs[0]] + xs[1..];
  }

  /** The series an alpha is shown as of a time are exactly the known records. */
  lemma ShownIsKnown(dataset: seq<Record>, known: seq<Record>, series: Digest, kind: DataType, asOf: Time)
    requires SeriesOk(Filter(dataset, Selects(series, kind))) && Known(known, dataset, series, kind, asOf)
    ensures Prepare(dataset, series, kind).Success?
    ensures var full := Prepare(dataset, series, kind).value;
            && (known == [] ==> EligibleAsOf(full, asOf) == Failure(NoRecords))
            && (known != [] ==> EligibleAsOf(full, asOf) == Success(known))
            && multiset(Filter(full, AvailableBy(asOf))) == multiset(known)
  {
    SeriesSucceeds(Filter(dataset, Selects(series, kind)));
    EligibleIsPast(dataset, series, kind, asOf);
    var past := Filter(Filter(dataset, AvailableBy(asOf)), Selects(series, kind));
    forall x: Record
      ensures x in past <==> x in known
    {
      FilterMember(Filter(dataset, AvailableBy(asOf)), Selects(series, kind), x);
      FilterMember(dataset, AvailableBy(asOf), x);
    }
    assert |known| > 0 ==> known[0] in known;
    if past != [] {
      SeriesSucceeds(past);
      SortedPast(past);
      forall x: Record
        ensures x in Sort(past, ByAvailability()) <==> x in known
      {
        InMultiset(past, Sort(past, ByAvailability()), x);
        InMultiset(Sort(past, ByAvailability()), past, x);
      }
      SameRising(Sort(past, ByAvailability()), known);
    }
    hide Filter;
    hide Sort;
    hide SeriesOk;
    hide Known;
  }

  lemma SortedPast(past: seq<Record>)
    requires SeriesOk(past)
    ensures var sorted := Sort(past, ByAvailability());
            && multiset(sorted) == multiset(past)
            && forall i, j :: 0 <= i < j < |sorted| ==> sorted[i].availableAt < sorted[j].availableAt
  {
    AvailabilityIsTotal();
    SortOrdered(past, ByAvailability());
    SortElements(past, ByAvailability());
    var sorted := Sort(past, ByAvailability());
    MapElements(past, sorted, (r: Record) => r.availableAt);
    DistinctElements(Times(past), Times(sorted));
    forall i, j | 0 <= i < j < |sorted|
      ensures sorted[i].availableAt < sorted[j].availableAt
    {
      assert ByAvailability()(sorted[i], sorted[j]);
      assert Times(sorted)[i] != Times(sorted)[j];
    }
  }

  predicate NoneAfter(times: seq<Time>, asOf: Time) {
    forall t :: t in times ==> t <= asOf
  }

  /** The point an as-of request is answered with is usable: it is dated by its record and uses no later source, and
      there is one point for each record. */
  predicate Usable(points: seq<Point>, known: seq<Record>, asOf: Time) {
    && known != [] && |points| == |known|
    && points[|points| - 1].at == known[|known| - 1].availableAt
    && NoneAfter(points[|points| - 1].sources, asOf)
  }

  /** An as-of request answers with the last point the alpha gives for the known records, which is dated by the latest
      of them; it has an answer if and only if that point is usable and as-of lies in the window. */
  lemma ValueIsLatest(alpha: AlphaFunction, dataset: seq<Record>, known: seq<Record>, series: Digest, kind: DataType, asOf: Time, w: Window)
    requires SeriesOk(Filter(dataset, Selects(series, kind))) && Known(known, dataset, series, kind, asOf)
    ensures var r, points := EvaluateOne(alpha, dataset, series, kind, asOf, w), alpha(known);
            && (r.Success? <==> Usable(points, known, asOf))
            && (r.Success? ==> (r.value.Some? <==> w.start <= asOf < w.end))
            && (r.Success? && r.value.Some? ==>
                  var v, point := r.value.value, points[|points| - 1];
                  && v.score == point.score && Spans(v.lookback, point.sources) && v.series == series && v.asOf == asOf
                  && multiset(v.inputs) == multiset(RowsFor(known)) && RowsRise(v.inputs))
  {
    ShownIsKnown(dataset, known, series, kind, asOf);
    var full := Prepare(dataset, series, kind).value;
    HashedRows(full, known, asOf);
    hide *;
    AnswerFor(alpha, dataset, full, known, series, kind, asOf, w);
  }

  /** The span runs from the earliest of the times to the latest, and is absent if there are none. */
  predicate Spans(span: Option<(Time, Time)>, times: seq<Time>) {
    if times == [] then span.None?
    else span.Some? && span.value.0 in times && span.value.1 in times && forall t :: t in times ==> span.value.0 <= t <= span.value.1
  }

  lemma LookbackLaw(times: seq<Time>)
    ensures Spans(Lookback(times), times)
  {
    var sorted := Sort(times, Gaps.AtMost());
    Gaps.AtMostIsTotal();
    SortElements(times, Gaps.AtMost());
    SortOrdered(times, Gaps.AtMost());
    assert |sorted| == |multiset(sorted)| == |multiset(times)| == |times|;
    hide Sort;
    if times != [] {
      var first, last := sorted[0], sorted[|sorted| - 1];
      assert first in sorted && last in sorted;
      InMultiset(sorted, times, first);
      InMultiset(sorted, times, last);
      forall t | t in times
        ensures first <= t <= last
      {
        InMultiset(sorted, times, t);
        var i :| 0 <= i < |sorted| && sorted[i] == t;
        assert i > 0 ==> Gaps.AtMost()(sorted[0], sorted[i]);
        assert i < |sorted| - 1 ==> Gaps.AtMost()(sorted[i], sorted[|sorted| - 1]);
      }
    }
  }

  /** A row for each record: its series, its availability and its content. */
  function RowsFor(known: seq<Record>): seq<Row> {
    seq(|known|, i requires 0 <= i < |known| => Row(known[i].series, known[i].availableAt, known[i].digest))
  }

  predicate RowRises(x: Row, y: Row) {
    x.series < y.series || (x.series == y.series && x.at < y.at) || (x.series == y.series && x.at == y.at && x.digest <= y.digest)
  }

  /** Rows by series, then availability, then content. */
  predicate RowsRise(rows: seq<Row>) {
    forall i, j :: 0 <= i < j < |rows| ==> RowRises(rows[i], rows[j])
  }

  lemma AnswerFor(alpha: AlphaFunction, dataset: seq<Record>, full: seq<Record>, known: seq<Record>, series: Digest, kind: DataType,
                  asOf: Time, w: Window)
    requires Prepare(dataset, series, kind) == Success(full)
    requires EligibleAsOf(full, asOf) == if known == [] then Failure(NoRecords) else Success(known)
    ensures var r, points := EvaluateOne(alpha, dataset, series, kind, asOf, w), alpha(known);
            && (r.Success? <==> Usable(points, known, asOf))
            && (r.Success? ==> (r.value.Some? <==> w.start <= asOf < w.end))
            && (r.Success? && r.value.Some? ==>
                  var v, point := r.value.value, points[|points| - 1];
                  && v.score == point.score && Spans(v.lookback, point.sources) && v.series == series && v.asOf == asOf
                  && v.inputs == InputRows(full, asOf))
  {
    hide Prepare;
    hide EligibleAsOf;
    hide InputRows;
    var points := alpha(known);
    if |points| == |known| && known != [] {
      SourcesBy(points[|points| - 1].sources, asOf);
      LookbackLaw(points[|points| - 1].sources);
    }
    hide Spans;
    hide Lookback;
    hide AllBy;
    hide NoneAfter;
  }

  lemma SourcesBy(times: seq<Time>, asOf: Time)
    ensures AllBy(times, asOf) <==> NoneAfter(times, asOf)
  {
    if AllBy(times, asOf) {
      forall t | t in times
        ensures t <= asOf
      {
        var i :| 0 <= i < |times| && times[i] == t;
      }
    }
    if NoneAfter(times, asOf) {
      forall i | 0 <= i < |times|
        ensures times[i] <= asOf
      {
        var t := times[i];
        assert t in times;
      }
    }
  }

  lemma HashedRows(full: seq<Record>, known: seq<Record>, asOf: Time)
    requires multiset(Filter(full, AvailableBy(asOf))) == multiset(known)
    ensures multiset(InputRows(full, asOf)) == multiset(RowsFor(known)) && RowsRise(InputRows(full, asOf))
  {
    assert Map(known, RowOf) == RowsFor(known);
    var past := Filter(full, AvailableBy(asOf));
    RowsAreTotal();
    MapElements(past, known, RowOf);
    SortElements(Map(past, RowOf), RowAtMost);
    SortOrdered(Map(past, RowOf), RowAtMost);
    var rows := InputRows(full, asOf);
    forall i, j | 0 <= i < j < |rows|
      ensures RowRises(rows[i], rows[j])
    {
      assert RowAtMost(rows[i], rows[j]);
    }
  }

  /** The date of that point is the latest time not after as-of at which a record of the series became available. */
  lemma LatestOfKnown(dataset: seq<Record>, known: seq<Record>, series: Digest, kind: DataType, asOf: Time)
    requires Known(known, dataset, series, kind, asOf) && known != []
    ensures var latest := known[|known| - 1];
            && latest in dataset && latest.series == series && latest.kind == kind && latest.availableAt <= asOf
            && forall x :: x in dataset && x.series == series && x.kind == kind && (kind == Ohlcv ==> x.final) && x.availableAt <= asOf ==>
                           x.availableAt <= latest.availableAt
  {
    var latest := known[|known| - 1];
    assert latest in known;
    forall x | x in known
      ensures x.availableAt <= latest.availableAt
    {
      var i :| 0 <= i < |known| && known[i] == x;
    }
  }

  lemma KnownExists(dataset: seq<Record>, series: Digest, kind: DataType, asOf: Time) returns (known: seq<Record>)
    requires SeriesOk(Filter(dataset, Selects(series, kind)))
    ensures Known(known, dataset, series, kind, asOf)
  {
    known := InOrder(Filter(dataset, Selects(series, kind)), asOf);
    forall x: Record
      ensures x in known <==> x in dataset && x.series == series && x.kind == kind && (kind == Ohlcv ==> x.final) && x.availableAt <= asOf
    {
      FilterMember(dataset, Selects(series, kind), x);
    }
    hide SeriesOk;
  }

  lemma InOrder(chosen: seq<Record>, asOf: Time) returns (known: seq<Record>)
    requires SeriesOk(chosen)
    ensures forall i, j :: 0 <= i < j < |known| ==> known[i].availableAt < known[j].availableAt
    ensures forall x: Record :: x in known <==> x in chosen && x.availableAt <= asOf
  {
    var past := Filter(chosen, AvailableBy(asOf));
    PartIsOk(chosen, AvailableBy(asOf));
    known := [];
    if past != [] {
      SortedPast(past);
      known := Sort(past, ByAvailability());
    }
    forall x: Record
      ensures x in known <==> x in chosen && x.availableAt <= asOf
    {
      FilterMember(chosen, AvailableBy(asOf), x);
      InMultiset(past, known, x);
    }
    hide SeriesOk;
  }

  /** No two of the kept records have the same key. */
  ghost predicate Apart(xs: seq<Record>, keep: Record -> bool, f: Record -> Time) {
    forall i, j :: 0 <= i < j < |xs| && keep(xs[i]) && keep(xs[j]) ==> f(xs[i]) != f(xs[j])
  }

  lemma {:induction false} ApartLaw(xs: seq<Record>, keep: Record -> bool, f: Record -> Time)
    ensures Distinct(Map(Filter(xs, keep), f)) <==> Apart(xs, keep, f)
  {
    if xs != [] {
      var x, rest := xs[0], Filter(xs[1..], keep);
      ApartLaw(xs[1..], keep, f);
      ApartHead(xs, keep, f);
      forall y: Record
        ensures y in rest <==> y in xs[1..] && keep(y)
      {
        FilterMember(xs[1..], keep, y);
      }
      hide Apart;
      if keep(x) {
        assert Filter(xs, keep) == [x] + rest;
        DistinctHead(x, rest, f);
      } else {
        assert Filter(xs, keep) == rest;
      }
    }
  }

  lemma ApartHead(xs: seq<Record>, keep: Record -> bool, f: Record -> Time)
    requires xs != []
    ensures Apart(xs, keep, f) <==>
              Apart(xs[1..], keep, f) && forall y :: y in xs[1..] && keep(y) && keep(xs[0]) ==> f(y) != f(xs[0])
  {
    if Apart(xs, keep, f) {
      forall i, j | 0 <= i < j < |xs[1..]| && keep(xs[1..][i]) && keep(xs[1..][j])
        ensures f(xs[1..][i]) != f(xs[1..][j])
      {
        assert xs[1..][i] == xs[i + 1] && xs[1..][j] == xs[j + 1];
      }
      forall y | y in xs[1..] && keep(y) && keep(xs[0])
        ensures f(y) != f(xs[0])
      {
        var i :| 0 <= i < |xs[1..]| && xs[1..][i] == y;
        assert xs[i + 1] == y;
      }
    }
    if Apart(xs[1..], keep, f) && forall y :: y in xs[1..] && keep(y) && keep(xs[0]) ==> f(y) != f(xs[0]) {
      forall i, j | 0 <= i < j < |xs| && keep(xs[i]) && keep(xs[j])
        ensures f(xs[i]) != f(xs[j])
      {
        var y := xs[1..][j - 1];
        assert y == xs[j] && y in xs[1..];
        assert i > 0 ==> xs[1..][i - 1] == xs[i];
      }
    }
  }

  lemma DistinctHead(x: Record, rest: seq<Record>, f: Record -> Time)
    ensures Distinct(Map([x] + rest, f)) <==> Distinct(Map(rest, f)) && forall y :: y in rest ==> f(y) != f(x)
  {
    var all := Map([x] + rest, f);
    assert all == [f(x)] + Map(rest, f);
    if Distinct(all) {
      forall i, j | 0 <= i < j < |rest|
        ensures Map(rest, f)[i] != Map(rest, f)[j]
      {
        assert all[i + 1] != all[j + 1];
      }
      forall y | y in rest
        ensures f(y) != f(x)
      {
        var i :| 0 <= i < |rest| && rest[i] == y;
        assert all[0] != all[i + 1];
      }
    }
    if Distinct(Map(rest, f)) && forall y :: y in rest ==> f(y) != f(x) {
      forall j | 0 <= j < |Map(rest, f)|
        ensures f(x) != Map(rest, f)[j]
      {
        var y := rest[j];
        assert y in rest;
      }
      HeadDistinct(f(x), Map(rest, f));
    }
  }

  /** A record that belongs to the series: of its type and identity, and final when it is a bar. */
  predicate Belongs(r: Record, series: Digest, kind: DataType) {
    r.series == series && r.kind == kind && (kind == Ohlcv ==> r.final)
  }

  /** A series can be prepared exactly when it has a record, its funding rates all have a grounded interval, and no two
      of its records became available together or, for bars, opened together. */
  lemma PrepareLaw(dataset: seq<Record>, series: Digest, kind: DataType)
    ensures Prepare(dataset, series, kind).Success? <==>
              && (exists x :: x in dataset && Belongs(x, series, kind))
              && (forall x :: x in dataset && Belongs(x, series, kind) && kind == FundingRates ==> x.grounded)
              && (forall i, j :: 0 <= i < j < |dataset| && Belongs(dataset[i], series, kind) && Belongs(dataset[j], series, kind) ==>
                    dataset[i].availableAt != dataset[j].availableAt && (kind == Ohlcv ==> dataset[i].openAt != dataset[j].openAt))
  {
    var keep := Selects(series, kind);
    var chosen := Filter(dataset, keep);
    assert Prepare(dataset, series, kind) == SeriesOf(chosen);
    SeriesSucceeds(chosen);
    ApartTimes(dataset, series, kind);
    forall x: Record
      ensures x in chosen <==> x in dataset && Belongs(x, series, kind)
    {
      FilterMember(dataset, keep, x);
    }
    ChosenOk(dataset, chosen, series, kind);
    hide *;
  }

  lemma ApartTimes(dataset: seq<Record>, series: Digest, kind: DataType)
    ensures var chosen := Filter(dataset, Selects(series, kind));
            Distinct(Times(chosen)) && (kind == Ohlcv ==> Distinct(Opens(chosen))) <==>
              forall i, j :: 0 <= i < j < |dataset| && Belongs(dataset[i], series, kind) && Belongs(dataset[j], series, kind) ==>
                dataset[i].availableAt != dataset[j].availableAt && (kind == Ohlcv ==> dataset[i].openAt != dataset[j].openAt)
  {
    var keep := Selects(series, kind);
    ApartLaw(dataset, keep, (r: Record) => r.availableAt);
    ApartLaw(dataset, keep, (r: Record) => r.openAt);
    hide Filter;
    hide Distinct;
  }

  lemma ChosenOk(dataset: seq<Record>, chosen: seq<Record>, series: Digest, kind: DataType)
    requires forall x: Record :: x in chosen <==> x in dataset && Belongs(x, series, kind)
    ensures SeriesOk(chosen) <==>
              && (exists x :: x in dataset && Belongs(x, series, kind))
              && (forall x :: x in dataset && Belongs(x, series, kind) && kind == FundingRates ==> x.grounded)
              && Distinct(Times(chosen)) && (kind == Ohlcv ==> Distinct(Opens(chosen)))
  {
    hide Distinct;
    hide Times;
    hide Opens;
    forall i | 0 <= i < |chosen|
      ensures Belongs(chosen[i], series, kind)
      ensures Admissible(chosen[i]) <==> kind == FundingRates ==> chosen[i].grounded
    {
      var x := chosen[i];
      assert x in chosen;
    }
    if exists x :: x in dataset && Belongs(x, series, kind) {
      var x :| x in dataset && Belongs(x, series, kind);
      assert x in chosen;
    }
    forall x | x in chosen
      ensures exists i :: 0 <= i < |chosen| && chosen[i] == x
    {
    }
    var first := if chosen == [] then None else Some(chosen[0]);
    assert first.Some? ==> first.value in chosen;
  }

  lemma NoSeriesNoValue(alpha: AlphaFunction, dataset: seq<Record>, series: Digest, kind: DataType, asOf: Time, w: Window)
    requires !SeriesOk(Filter(dataset, Selects(series, kind)))
    ensures EvaluateOne(alpha, dataset, series, kind, asOf, w).Failure?
  {
    SeriesSucceeds(Filter(dataset, Selects(series, kind)));
  }

  /** Each requested series that has an answer contributes it, and each that has none its failure. */
  lemma {:induction false} EachIsAnswered(alpha: AlphaFunction, dataset: seq<Record>, identities: seq<Digest>, kind: DataType, asOf: Time, w: Window)
    requires Distinct(identities)
    ensures var p := EvaluateAll(alpha, dataset, identities, kind, asOf, w);
            && (forall s :: s in p.seen ==> s in identities)
            && (forall v :: v in p.values <==> exists i :: 0 <= i < |identities| && EvaluateOne(alpha, dataset, identities[i], kind, asOf, w) == Success(Some(v)))
            && (forall s, f :: (s, f) in p.failures <==> s in identities && EvaluateOne(alpha, dataset, s, kind, asOf, w) == Failure(f))
    decreases |identities|
  {
    hide EvaluateOne;
    if identities != [] {
      var front, last := identities[..|identities| - 1], identities[|identities| - 1];
      assert identities == front + [last];
      assert last !in front;
      EachIsAnswered(alpha, dataset, front, kind, asOf, w);
    }
  }

  /** A series asked for again after it has answered adds one failure and nothing else. */
  lemma RepeatFails(alpha: AlphaFunction, dataset: seq<Record>, identities: seq<Digest>, series: Digest, kind: DataType, asOf: Time, w: Window, v: Value)
    requires series in identities && EvaluateOne(alpha, dataset, series, kind, asOf, w) == Success(Some(v))
    ensures var p := EvaluateAll(alpha, dataset, identities, kind, asOf, w);
            EvaluateAll(alpha, dataset, identities + [series], kind, asOf, w) == p.(failures := p.failures + [(series, DuplicateIdentity)])
  {
    hide EvaluateOne;
    assert (identities + [series])[..|identities|] == identities;
    AnsweredIsSeen(alpha, dataset, identities, series, kind, asOf, w, v);
  }

  lemma {:induction false} AnsweredIsSeen(alpha: AlphaFunction, dataset: seq<Record>, identities: seq<Digest>, series: Digest, kind: DataType,
                                          asOf: Time, w: Window, v: Value)
    requires series in identities && EvaluateOne(alpha, dataset, series, kind, asOf, w) == Success(Some(v))
    ensures series in EvaluateAll(alpha, dataset, identities, kind, asOf, w).seen
    decreases |identities|
  {
    hide EvaluateOne;
    var front, last := identities[..|identities| - 1], identities[|identities| - 1];
    assert identities == front + [last];
    if series in front {
      AnsweredIsSeen(alpha, dataset, front, series, kind, asOf, w, v);
    }
  }

  // ---------------------------------------------------------------- series resolved from the dataset

  predicate HasPast(dataset: seq<Record>, series: Digest, kind: DataType, asOf: Time) {
    Filter(Filter(dataset, AvailableBy(asOf)), Selects(series, kind)) != []
  }

  /** `series_identities_for_dataset`, sorted: every series of the type whose symbol was asked for, future ones too. */
  ghost predicate Resolved(identities: seq<Digest>, dataset: seq<Record>, kind: DataType, asked: Digest -> bool) {
    && Gaps.Rising(identities)
    && forall s: Digest :: s in identities <==> asked(s) && exists i :: 0 <= i < |dataset| && dataset[i].series == s && dataset[i].kind == kind
  }

  /** A series that has no past gives no value, only a failure. */
  lemma OnlyFutureFails(alpha: AlphaFunction, d: seq<Record>, series: Digest, kind: DataType, asOf: Time, w: Window)
    requires Sane(d, series, kind) && !HasPast(d, series, kind, asOf)
    ensures EvaluateOne(alpha, d, series, kind, asOf, w) == Failure(NoRecords)
  {
    if Prepare(d, series, kind).Success? {
      EligibleIsPast(d, series, kind, asOf);
    }
  }

  function OfSeries(past: Digest -> bool): ((Digest, Failure)) -> bool {
    (f: (Digest, Failure)) => past(f.0)
  }

  /** `q` is `p` without the failures of series that have no past. */
  ghost predicate Cleared(p: Progress, q: Progress, past: Digest -> bool) {
    && p.values == q.values && p.seen == q.seen
    && q.failures == Filter(p.failures, OfSeries(past))
    && forall f :: f in p.failures ==> past(f.0) || f.1 == NoRecords
  }

  lemma ClearedStep(p: Progress, q: Progress, series: Digest, one: Result<Option<Value>, Failure>, past: Digest -> bool)
    requires Cleared(p, q, past)
    requires past(series) || one == Failure(NoRecords)
    ensures Cleared(Advance(p, series, one), if past(series) then Advance(q, series, one) else q, past)
  {
    hide Filter;
    var added := if one.Failure? then one.error else DuplicateIdentity;
    FilterAppend(p.failures, [(series, added)], OfSeries(past));
    OneFailure(series, added, past);
  }

  lemma OneFailure(series: Digest, f: Failure, past: Digest -> bool)
    ensures Filter([(series, f)], OfSeries(past)) == if past(series) then [(series, f)] else []
  {
    assert [(series, f)][1..] == [];
  }

  lemma {:induction false} OnlyPastMatters(alpha: AlphaFunction, d: seq<Record>, identities: seq<Digest>, kind: DataType, asOf: Time, w: Window,
                                           past: Digest -> bool)
    requires forall s: Digest :: past(s) <==> HasPast(d, s, kind, asOf)
    requires forall i :: 0 <= i < |identities| ==> Sane(d, identities[i], kind)
    ensures Cleared(EvaluateAll(alpha, d, identities, kind, asOf, w), EvaluateAll(alpha, d, Filter(identities, past), kind, asOf, w), past)
    decreases |identities|
  {
    hide EvaluateOne;
    hide HasPast;
    hide Sane;
    hide Advance;
    hide Cleared;
    if identities != [] {
      var front, last := identities[..|identities| - 1], identities[|identities| - 1];
      OnlyPastMatters(alpha, d, front, kind, asOf, w, past);
      LastKept(front, last, past);
      assert identities == front + [last];
      if !past(last) {
        OnlyFutureFails(alpha, d, last, kind, asOf, w);
      }
      ClearedStep(EvaluateAll(alpha, d, front, kind, asOf, w), EvaluateAll(alpha, d, Filter(front, past), kind, asOf, w), last,
                  EvaluateOne(alpha, d, last, kind, asOf, w), past);
    } else {
      NothingCleared(past);
    }
  }

  lemma NothingCleared(past: Digest -> bool)
    ensures Cleared(Progress([], [], {}), Progress([], [], {}), past)
  {
  }

  lemma LastKept(front: seq<Digest>, last: Digest, past: Digest -> bool)
    ensures var all := Filter(front + [last], past);
            if past(last) then all != [] && all[..|all| - 1] == Filter(front, past) && all[|all| - 1] == last else all == Filter(front, past)
  {
    FilterAppend(front, [last], past);
    assert [last][1..] == [];
  }

  /** When the series are resolved from the dataset itself, a series known only later adds a failure and nothing else:
      the values, and the failures of every series with a past, are the same. */
  lemma FutureSeriesAddNoValue(alpha: AlphaFunction, d: seq<Record>, e: seq<Record>, xs: seq<Digest>, ys: seq<Digest>, kind: DataType,
                               asked: Digest -> bool, asOf: Time, w: Window)
    requires SamePast(d, e, asOf) && Resolved(xs, d, kind, asked) && Resolved(ys, e, kind, asked)
    requires forall s: Digest :: s in xs || s in ys ==> Sane(d, s, kind) && Sane(e, s, kind)
    ensures var p, q := EvaluateAll(alpha, d, xs, kind, asOf, w), EvaluateAll(alpha, e, ys, kind, asOf, w);
            && p.values == q.values && p.seen == q.seen
            && Filter(p.failures, OfSeries((s: Digest) => HasPast(d, s, kind, asOf)))
               == Filter(q.failures, OfSeries((s: Digest) => HasPast(d, s, kind, asOf)))
            && forall f :: f in p.failures || f in q.failures ==> HasPast(d, f.0, kind, asOf) || f.1 == NoRecords
  {
    var past := (s: Digest) => HasPast(d, s, kind, asOf);
    SameHasPast(d, e, kind, asOf);
    OnlyPastMatters(alpha, d, xs, kind, asOf, w, past);
    OnlyPastMatters(alpha, e, ys, kind, asOf, w, past);
    SamePastSeries(d, e, xs, ys, kind, asked, asOf, past);
    FutureCannotChangeRun(alpha, d, e, Filter(xs, past), kind, asOf, w);
  }

  lemma SameHasPast(d: seq<Record>, e: seq<Record>, kind: DataType, asOf: Time)
    requires SamePast(d, e, asOf)
    ensures forall s: Digest :: HasPast(d, s, kind, asOf) <==> HasPast(e, s, kind, asOf)
  {
    forall s: Digest
      ensures HasPast(d, s, kind, asOf) <==> HasPast(e, s, kind, asOf)
    {
      var x, y := Filter(Filter(d, AvailableBy(asOf)), Selects(s, kind)), Filter(Filter(e, AvailableBy(asOf)), Selects(s, kind));
      FilterElements(Filter(d, AvailableBy(asOf)), Filter(e, AvailableBy(asOf)), Selects(s, kind));
      assert |x| == |multiset(x)| == |multiset(y)| == |y|;
    }
  }

  lemma PastIsResolved(d: seq<Record>, xs: seq<Digest>, kind: DataType, asked: Digest -> bool, asOf: Time, s: Digest)
    requires Resolved(xs, d, kind, asked) && HasPast(d, s, kind, asOf)
    ensures s in xs <==> asked(s)
  {
    var known := Filter(d, AvailableBy(asOf));
    var r := Filter(known, Selects(s, kind))[0];
    FilterMember(known, Selects(s, kind), r);
    FilterMember(d, AvailableBy(asOf), r);
    var i :| 0 <= i < |d| && d[i] == r;
  }

  lemma SamePastSeries(d: seq<Record>, e: seq<Record>, xs: seq<Digest>, ys: seq<Digest>, kind: DataType, asked: Digest -> bool, asOf: Time,
                       past: Digest -> bool)
    requires Resolved(xs, d, kind, asked) && Resolved(ys, e, kind, asked)
    requires forall s: Digest :: past(s) <==> HasPast(d, s, kind, asOf)
    requires forall s: Digest :: HasPast(d, s, kind, asOf) <==> HasPast(e, s, kind, asOf)
    ensures Filter(xs, past) == Filter(ys, past)
    ensures forall s :: s in Filter(xs, past) ==> s in xs
  {
    RisingPart(xs, past);
    RisingPart(ys, past);
    forall s: Digest
      ensures s in Filter(xs, past) <==> s in xs && past(s)
      ensures s in Filter(ys, past) <==> s in ys && past(s)
      ensures past(s) ==> (s in xs <==> s in ys)
    {
      FilterMember(xs, past, s);
      FilterMember(ys, past, s);
      if past(s) {
        PastIsResolved(d, xs, kind, asked, asOf, s);
        PastIsResolved(e, ys, kind, asked, asOf, s);
      }
    }
    hide HasPast;
    hide Resolved;
    hide Filter;
    Gaps.RisingUnique(Filter(xs, past), Filter(ys, past));
  }

  lemma {:induction false} RisingPart(xs: seq<Digest>, keep: Digest -> bool)
    requires Gaps.Rising(xs)
    ensures Gaps.Rising(Filter(xs, keep))
    decreases |xs|
  {
    if xs != [] {
      RisingPart(xs[1..], keep);
      forall s: Digest
        ensures s in Filter(xs[1..], keep) ==> s in xs[1..]
      {
        FilterMember(xs[1..], keep, s);
      }
      assert forall i :: 0 <= i < |Filter(xs[1..], keep)| ==> Filter(xs[1..], keep)[i] in xs[1..];
    }
  }

  /** Where the past alone has an answer, adding what is known only later keeps it if and only if the records of the
      series, later ones included, are admissible and repeat no availability or open time. */
  lemma PastDecides(alpha: AlphaFunction, d: seq<Record>, series: Digest, kind: DataType, asOf: Time, w: Window)
    requires EvaluateOne(alpha, Filter(d, AvailableBy(asOf)), series, kind, asOf, w).Success?
    ensures EvaluateOne(alpha, d, series, kind, asOf, w) == EvaluateOne(alpha, Filter(d, AvailableBy(asOf)), series, kind, asOf, w)
            <==> SeriesOk(Filter(d, Selects(series, kind)))
  {
    var past := Filter(d, AvailableBy(asOf));
    SeriesSucceeds(Filter(d, Selects(series, kind)));
    if Prepare(d, series, kind).Success? {
      PastOfPast(d, asOf);
      FutureCannotChangePast(alpha, d, past, series, kind, asOf, w);
    }
  }

  lemma PastOfPast(d: seq<Record>, asOf: Time)
    ensures SamePast(d, Filter(d, AvailableBy(asOf)), asOf)
  {
    var past := Filter(d, AvailableBy(asOf));
    forall r | r in past
      ensures AvailableBy(asOf)(r)
    {
      FilterMember(d, AvailableBy(asOf), r);
    }
    FilterAll(past, AvailableBy(asOf));
  }

  /** An answer that a later record takes away: two bars of one availability time, both in the future. */
  lemma LaterRepeatFailsPast(alpha: AlphaFunction)
    requires forall rs: seq<Record> :: rs != [] ==> |alpha(rs)| == |rs| && alpha(rs)[|rs| - 1] == Point(rs[|rs| - 1].availableAt, [], 0.0)
    ensures var r := Record(1, Ohlcv, 5, 4, true, true, 1, 1); var later := r.(availableAt := 9, openAt := 8);
            && EvaluateOne(alpha, [r], 1, Ohlcv, 6, Window(0, 10)).Success?
            && EvaluateOne(alpha, [r, later, later], 1, Ohlcv, 6, Window(0, 10)) == Failure(DuplicateTime)
  {
    OneBar(Record(1, Ohlcv, 5, 4, true, true, 1, 1));
    TwiceLater(Record(1, Ohlcv, 5, 4, true, true, 1, 1), Record(1, Ohlcv, 9, 8, true, true, 1, 1));
    hide Prepare;
    hide EligibleAsOf;
    hide InputRows;
  }

  lemma OneBar(r: Record)
    requires r.kind == Ohlcv && r.final && r.series == 1 && r.availableAt == 5
    ensures Prepare([r], 1, Ohlcv) == Success([r]) && EligibleAsOf([r], 6) == Success([r])
  {
    assert [r][1..] == [];
    assert Filter([r], Selects(1, Ohlcv)) == [r];
    assert Filter([r], AvailableBy(6)) == [r];
    assert Sort([r], ByAvailability()) == [r];
    hide Filter;
    hide Sort;
    SeriesSucceeds([r]);
  }

  lemma TwiceLater(r: Record, later: Record)
    requires r.kind == later.kind == Ohlcv && r.final && later.final && r.series == later.series == 1
    ensures Prepare([r, later, later], 1, Ohlcv) == Failure(DuplicateTime)
  {
    var three := [r, later, later];
    FilterAll(three, Selects(1, Ohlcv));
    hide Filter;
    hide Sort;
    assert Times(three)[1] == Times(three)[2];
  }

  lemma SameTrouble(xs: seq<Record>, ys: seq<Record>)
    requires multiset(xs) == multiset(ys)
    ensures OneSeries(xs) ==> OneSeries(ys)
    ensures (exists i :: 0 <= i < |ys| && !Admissible(ys[i])) ==> exists i :: 0 <= i < |xs| && !Admissible(xs[i])
    ensures Distinct(Times(xs)) ==> Distinct(Times(ys))
    ensures Distinct(Opens(xs)) ==> Distinct(Opens(ys))
    ensures xs != [] && OneSeries(xs) && ys != [] ==> xs[0].kind == ys[0].kind
  {
    if OneSeries(xs) {
      OneSeriesOf(xs, ys);
      if xs != [] && ys != [] {
        InMultiset(ys, xs, ys[0]);
        var i :| 0 <= i < |xs| && xs[i] == ys[0];
        assert xs[0].kind == xs[i].kind;
      }
    }
    if forall i :: 0 <= i < |xs| ==> Admissible(xs[i]) {
      AdmissibleOf(xs, ys);
    }
    MapElements(xs, ys, (r: Record) => r.availableAt);
    MapElements(xs, ys, (r: Record) => r.openAt);
    if Distinct(Times(xs)) {
      DistinctElements(Times(xs), Times(ys));
    }
    if Distinct(Opens(xs)) {
      DistinctElements(Opens(xs), Opens(ys));
    }
  }

  lemma SameSeriesOf(xs: seq<Record>, ys: seq<Record>)
    requires multiset(xs) == multiset(ys)
    ensures SeriesOf(xs) == SeriesOf(ys)
  {
    assert |xs| == |multiset(xs)| == |multiset(ys)| == |ys|;
    SameTrouble(xs, ys);
    SameTrouble(ys, xs);
    if SeriesOk(xs) {
      SameOutcome(xs, ys);
    }
    hide Times;
    hide Opens;
    hide OneSeries;
    hide Distinct;
    hide Sort;
    hide Admissible;
  }

  /** Permuting a dataset changes neither its digest nor any prepared series, nor the reason one is refused. */
  lemma PermutationIrrelevant(d: seq<Record>, e: seq<Record>, series: Digest, kind: DataType)
    requires multiset(d) == multiset(e)
    ensures DatasetRows(d) == DatasetRows(e)
    ensures Prepare(d, series, kind) == Prepare(e, series, kind)
  {
    SameRows(d, e);
    FilterElements(d, e, Selects(series, kind));
    SameSeriesOf(Filter(d, Selects(series, kind)), Filter(e, Selects(series, kind)));
    hide SeriesOf;
    hide Filter;
    hide Sort;
  }

  /** The engine's loop over the requested series. */
  method Evaluate(alpha: AlphaFunction, dataset: seq<Record>, identities: seq<Digest>, kind: DataType, asOf: Time, w: Window)
    returns (values: seq<Value>, failures: seq<(Digest, Failure)>)
    ensures var p := EvaluateAll(alpha, dataset, identities, kind, asOf, w); values == p.values && failures == p.failures
  {
    hide EvaluateOne;
    values, failures := [], [];
    var seen: set<Digest> := {};
    for i := 0 to |identities|
      invariant Progress(values, failures, seen) == EvaluateAll(alpha, dataset, identities[..i], kind, asOf, w)
    {
      assert identities[..i + 1][..i] == identities[..i];
      var series := identities[i];
      var one := EvaluateOne(alpha, dataset, series, kind, asOf, w);
      if one.Failure? {
        failures := failures + [(series, one.error)];
      } else if one.value.Some? {
        if series in seen {
          failures := failures + [(series, DuplicateIdentity)];
        } else {
          values, seen := values + [one.value.value], seen + {series};
        }
      }
    }
    assert identities[..|identities|] == identities;
  }
}
