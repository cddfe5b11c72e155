/** Cross-source reconciliation counts (data_validation/reconciliation.py), for any number of providers. */
module Reconciliation {
  import opened Results
  import opened MapSums
  import Sorting

  /** `content` stands for the bar's prices, volume and close time. */
  datatype Bar = Bar(openAt: nat, content: nat)

  datatype Dataset = Dataset(provider: nat, bars: seq<Bar>)

  type ByProvider = map<nat, Bar>

  /** Bars by open time and provider. */
  type Table = map<nat, ByProvider>

  predicate DistinctTimes(bars: seq<Bar>) {
    forall i, j :: 0 <= i < j < |bars| ==> bars[i].openAt != bars[j].openAt
  }

  predicate ValidDatasets(ds: seq<Dataset>) {
    && (forall i, j :: 0 <= i < j < |ds| ==> ds[i].provider != ds[j].provider)
    && (forall i :: 0 <= i < |ds| ==> DistinctTimes(ds[i].bars))
  }

  // ---------------------------------------------------------------- the table

  function At(table: Table, t: nat): ByProvider {
    if t in table then table[t] else map[]
  }

  function AddBar(table: Table, provider: nat, bar: Bar): Table {
    table[bar.openAt := At(table, bar.openAt)[provider := bar]]
  }

  function AddBars(table: Table, provider: nat, bars: seq<Bar>): Table {
    if bars == [] then table else AddBar(AddBars(table, provider, bars[..|bars| - 1]), provider, bars[|bars| - 1])
  }

  function Prepare(ds: seq<Dataset>): Table {
    if ds == [] then map[] else AddBars(Prepare(ds[..|ds| - 1]), ds[|ds| - 1].provider, ds[|ds| - 1].bars)
  }

  function BarCount(ds: seq<Dataset>): nat {
    if ds == [] then 0 else BarCount(ds[..|ds| - 1]) + |ds[|ds| - 1].bars|
  }

  predicate Shows(row: ByProvider, p: nat, bar: Bar) {
    p in row && row[p] == bar
  }

  /** `provider` reports `bar`. */
  predicate Reports(ds: seq<Dataset>, provider: nat, bar: Bar) {
    exists i :: 0 <= i < |ds| && ds[i].provider == provider && bar in ds[i].bars
  }

  lemma {:induction false} AddBarsLaw(table: Table, provider: nat, bars: seq<Bar>, t: nat, p: nat)
    requires DistinctTimes(bars)
    ensures var after := AddBars(table, provider, bars);
            p in At(after, t) <==> p in At(table, t) || (p == provider && exists bar :: bar in bars && bar.openAt == t)
    ensures var after := AddBars(table, provider, bars);
            p in At(after, t) ==> (p == provider && At(after, t)[p] in bars && At(after, t)[p].openAt == t)
                                  || (p in At(table, t) && At(after, t)[p] == At(table, t)[p])
    ensures t in AddBars(table, provider, bars) <==> t in table || exists bar :: bar in bars && bar.openAt == t
    decreases |bars|
  {
    if bars != [] {
      var front, last := bars[..|bars| - 1], bars[|bars| - 1];
      AddBarsLaw(table, provider, front, t, p);
      assert forall bar :: bar in bars <==> bar in front || bar == last;
    }
  }

  /** The bar of one provider that opens at `t`. */
  predicate HasBar(d: Dataset, t: nat) {
    exists bar :: bar in d.bars && bar.openAt == t
  }

  lemma SameOpen(bars: seq<Bar>, x: Bar, y: Bar)
    requires DistinctTimes(bars) && x in bars && y in bars && x.openAt == y.openAt
    ensures x == y
  {
    var i :| 0 <= i < |bars| && bars[i] == x;
    var j :| 0 <= j < |bars| && bars[j] == y;
  }

  /** The table holds exactly what the providers report, whatever the order of datasets and of their bars. */
  lemma {:induction false} TableLaw(ds: seq<Dataset>, t: nat, p: nat, bar: Bar)
    requires ValidDatasets(ds)
    ensures Shows(At(Prepare(ds), t), p, bar) <==> (Reports(ds, p, bar) && bar.openAt == t)
    ensures p in At(Prepare(ds), t) ==> Provides(ds, p)
    ensures t in Prepare(ds) <==> Prepared(ds, t)
    decreases |ds|
  {
    if ds != [] {
      var front, last := ds[..|ds| - 1], ds[|ds| - 1];
      assert ValidDatasets(front);
      TableLaw(front, t, p, bar);
      AddBarsLaw(Prepare(front), last.provider, last.bars, t, p);
      ReportsStep(ds, p, bar);
      PreparedStep(ds, t);
      ProviderStep(ds, p);
      hide AddBars;
      hide Reports;
      hide Prepared;
      hide Provides;
      if p == last.provider {
        var here := At(Prepare(ds), t);
        if p in here && bar in last.bars && bar.openAt == t {
          SameOpen(last.bars, here[p], bar);
        }
      }
    }
  }

  predicate Prepared(ds: seq<Dataset>, t: nat) {
    exists i :: 0 <= i < |ds| && HasBar(ds[i], t)
  }

  lemma ReportsStep(ds: seq<Dataset>, p: nat, bar: Bar)
    requires ds != []
    ensures Reports(ds, p, bar) <==> Reports(ds[..|ds| - 1], p, bar) || (ds[|ds| - 1].provider == p && bar in ds[|ds| - 1].bars)
  {
    var front := ds[..|ds| - 1];
    if Reports(front, p, bar) {
      var i :| 0 <= i < |front| && front[i].provider == p && bar in front[i].bars;
      assert ds[i] == front[i];
    }
    if Reports(ds, p, bar) {
      var i :| 0 <= i < |ds| && ds[i].provider == p && bar in ds[i].bars;
      assert i < |front| ==> front[i] == ds[i];
    }
  }

  lemma PreparedStep(ds: seq<Dataset>, t: nat)
    requires ds != []
    ensures Prepared(ds, t) <==> Prepared(ds[..|ds| - 1], t) || HasBar(ds[|ds| - 1], t)
  {
    hide HasBar;
    var front := ds[..|ds| - 1];
    if Prepared(front, t) {
      var i :| 0 <= i < |front| && HasBar(front[i], t);
      assert ds[i] == front[i];
    }
    if Prepared(ds, t) {
      var i :| 0 <= i < |ds| && HasBar(ds[i], t);
      assert i < |front| ==> front[i] == ds[i];
    }
  }

  predicate Provides(ds: seq<Dataset>, p: nat) {
    exists i :: 0 <= i < |ds| && ds[i].provider == p
  }

  lemma ProviderStep(ds: seq<Dataset>, p: nat)
    requires ds != []
    ensures Provides(ds, p) <==> Provides(ds[..|ds| - 1], p) || ds[|ds| - 1].provider == p
  {
    var front := ds[..|ds| - 1];
    if Provides(front, p) {
      var i :| 0 <= i < |front| && front[i].provider == p;
      assert ds[i].provider == p;
    }
    if Provides(ds, p) {
      var i :| 0 <= i < |ds| && ds[i].provider == p;
      assert i < |front| ==> front[i].provider == p;
    }
  }

  /** The table is decided by what is reported. */
  lemma SameReports(ds: seq<Dataset>, other: seq<Dataset>)
    requires ValidDatasets(ds) && ValidDatasets(other)
    requires forall p: nat, bar: Bar :: Reports(ds, p, bar) <==> Reports(other, p, bar)
    ensures Prepare(ds) == Prepare(other)
  {
    forall t: nat
      ensures t in Prepare(ds) <==> t in Prepare(other)
      ensures At(Prepare(ds), t) == At(Prepare(other), t)
    {
      SameRow(ds, other, t);
      SameRow(other, ds, t);
    }
    hide Prepare;
    assert Prepare(ds).Keys == Prepare(other).Keys;
    forall t | t in Prepare(ds)
      ensures Prepare(ds)[t] == Prepare(other)[t]
    {
      assert At(Prepare(ds), t) == At(Prepare(other), t);
    }
  }

  function Content(d: Dataset): (nat, multiset<Bar>) {
    (d.provider, multiset(d.bars))
  }

  /** The same datasets in another order, each with its bars in another order. */
  ghost predicate Rearranged(ds: seq<Dataset>, other: seq<Dataset>) {
    multiset(Sorting.Map(ds, Content)) == multiset(Sorting.Map(other, Content))
  }

  lemma Matched(ds: seq<Dataset>, other: seq<Dataset>, i: nat) returns (j: nat)
    requires Rearranged(ds, other) && i < |ds|
    ensures j < |other| && other[j].provider == ds[i].provider && multiset(other[j].bars) == multiset(ds[i].bars)
  {
    var x, y := Sorting.Map(ds, Content), Sorting.Map(other, Content);
    assert x[i] in multiset(x);
    assert x[i] in y;
    j :| 0 <= j < |y| && y[j] == x[i];
  }

  lemma ReportsKept(ds: seq<Dataset>, other: seq<Dataset>, p: nat, bar: Bar)
    requires Rearranged(ds, other) && Reports(ds, p, bar)
    ensures Reports(other, p, bar)
  {
    var i :| 0 <= i < |ds| && ds[i].provider == p && bar in ds[i].bars;
    var j := Matched(ds, other, i);
    assert bar in multiset(ds[i].bars);
    assert bar in other[j].bars;
  }

  lemma TimesKept(bars: seq<Bar>, other: seq<Bar>)
    requires multiset(bars) == multiset(other) && DistinctTimes(bars)
    ensures DistinctTimes(other)
  {
    var time := (b: Bar) => b.openAt;
    Sorting.MapElements(bars, other, time);
    Sorting.DistinctElements(Sorting.Map(bars, time), Sorting.Map(other, time));
    assert forall i :: 0 <= i < |other| ==> Sorting.Map(other, time)[i] == other[i].openAt;
  }

  lemma ProvidersKept(ds: seq<Dataset>, other: seq<Dataset>)
    requires Rearranged(ds, other) && forall i, j :: 0 <= i < j < |ds| ==> ds[i].provider != ds[j].provider
    ensures forall i, j :: 0 <= i < j < |other| ==> other[i].provider != other[j].provider
  {
    var first := (c: (nat, multiset<Bar>)) => c.0;
    var x, y := Sorting.Map(Sorting.Map(ds, Content), first), Sorting.Map(Sorting.Map(other, Content), first);
    Sorting.MapElements(Sorting.Map(ds, Content), Sorting.Map(other, Content), first);
    Sorting.DistinctElements(x, y);
    assert forall i :: 0 <= i < |other| ==> y[i] == other[i].provider;
  }

  lemma StaysValid(ds: seq<Dataset>, other: seq<Dataset>)
    requires Rearranged(ds, other) && ValidDatasets(ds)
    ensures ValidDatasets(other)
  {
    ProvidersKept(ds, other);
    forall i | 0 <= i < |other|
      ensures DistinctTimes(other[i].bars)
    {
      var j := Matched(other, ds, i);
      TimesKept(ds[j].bars, other[i].bars);
    }
  }

  /** What the preparation accepts, and the table it builds. */
  function Tabled(ds: seq<Dataset>): Option<Table> {
    if |ds| >= 2 && ValidDatasets(ds) && Prepare(ds) != map[] then Some(Prepare(ds)) else None
  }

  /** The order of datasets, and of the bars inside them, changes neither acceptance nor the table nor the counts. */
  lemma OrderIrrelevant(ds: seq<Dataset>, other: seq<Dataset>, c: Counts)
    requires Rearranged(ds, other)
    ensures |ds| == |other| && (ValidDatasets(ds) <==> ValidDatasets(other)) && Tabled(ds) == Tabled(other)
    ensures ValidDatasets(ds) ==> (CountsOf(Prepare(ds), |ds|, c) <==> CountsOf(Prepare(other), |other|, c))
  {
    var x, y := Sorting.Map(ds, Content), Sorting.Map(other, Content);
    assert |ds| == |multiset(x)| == |multiset(y)| == |other|;
    if ValidDatasets(ds) {
      StaysValid(ds, other);
      forall p: nat, bar: Bar
        ensures Reports(ds, p, bar) <==> Reports(other, p, bar)
      {
        if Reports(ds, p, bar) {
          ReportsKept(ds, other, p, bar);
        }
        if Reports(other, p, bar) {
          ReportsKept(other, ds, p, bar);
        }
      }
      SameReports(ds, other);
    } else if ValidDatasets(other) {
      StaysValid(other, ds);
    }
    hide Prepare;
    hide ValidDatasets;
    hide CountsOf;
  }

  lemma SameRow(ds: seq<Dataset>, other: seq<Dataset>, t: nat)
    requires ValidDatasets(ds) && ValidDatasets(other)
    requires forall p: nat, bar: Bar :: Reports(ds, p, bar) <==> Reports(other, p, bar)
    ensures t in Prepare(ds) ==> t in Prepare(other)
    ensures At(Prepare(ds), t) == At(Prepare(other), t)
  {
    hide Prepare;
    forall p: nat, bar: Bar
      ensures Shows(At(Prepare(ds), t), p, bar) <==> Shows(At(Prepare(other), t), p, bar)
    {
      TableLaw(ds, t, p, bar);
      TableLaw(other, t, p, bar);
    }
    SameMaps(At(Prepare(ds), t), At(Prepare(other), t));
    if t in Prepare(ds) {
      TableLaw(ds, t, 0, Bar(t, 0));
      var i :| 0 <= i < |ds| && HasBar(ds[i], t);
      var bar :| bar in ds[i].bars && bar.openAt == t;
      assert Reports(ds, ds[i].provider, bar);
      assert Reports(other, ds[i].provider, bar);
      var j :| 0 <= j < |other| && other[j].provider == ds[i].provider && bar in other[j].bars;
      assert HasBar(other[j], t);
      TableLaw(other, t, 0, Bar(t, 0));
    }
  }

  lemma SameMaps(x: ByProvider, y: ByProvider)
    requires forall p: nat, bar: Bar :: Shows(x, p, bar) <==> Shows(y, p, bar)
    ensures x == y
  {
    forall p: nat
      ensures p in x <==> p in y
      ensures p in x ==> x[p] == y[p]
    {
      if p in x {
        var bar := x[p];
        assert Shows(x, p, bar) && Shows(y, p, bar);
      }
      if p in y {
        var bar := y[p];
        assert Shows(y, p, bar) && Shows(x, p, bar);
      }
    }
    assert x.Keys == y.Keys;
  }

  // ---------------------------------------------------------------- the counts

  ghost function Sizes(table: Table): map<nat, real> {
    map t | t in table :: |table[t]| as real
  }

  ghost function Absent(table: Table, providers: nat): map<nat, real> {
    map t | t in table :: (providers as int - |table[t]| as int) as real
  }

  lemma AddBarCounts(table: Table, provider: nat, bar: Bar)
    requires provider !in At(table, bar.openAt)
    ensures Total(Sizes(AddBar(table, provider, bar))) == Total(Sizes(table)) + 1.0
  {
    var t, after := bar.openAt, AddBar(table, provider, bar);
    assert |after[t]| == |At(table, t)| + 1;
    assert Sizes(after) == Sizes(table)[t := |after[t]| as real];
    TotalUpdate(Sizes(table), t, |after[t]| as real);
  }

  lemma {:induction false} AddBarsCounts(table: Table, provider: nat, bars: seq<Bar>)
    requires DistinctTimes(bars) && forall t :: provider !in At(table, t)
    ensures Total(Sizes(AddBars(table, provider, bars))) == Total(Sizes(table)) + |bars| as real
    decreases |bars|
  {
    if bars != [] {
      var front, last := bars[..|bars| - 1], bars[|bars| - 1];
      AddBarsCounts(table, provider, front);
      AddBarsLaw(table, provider, front, last.openAt, provider);
      hide Total;
      assert forall bar :: bar in front ==> bar.openAt != last.openAt by {
        forall bar | bar in front
          ensures bar.openAt != last.openAt
        {
          var i :| 0 <= i < |front| && front[i] == bar;
          assert bars[i].openAt != bars[|bars| - 1].openAt;
        }
      }
      AddBarCounts(AddBars(table, provider, front), provider, last);
    }
  }

  lemma NewProvider(ds: seq<Dataset>)
    requires ValidDatasets(ds) && ds != []
    ensures !Provides(ds[..|ds| - 1], ds[|ds| - 1].provider)
  {
  }

  lemma {:induction false} TableCounts(ds: seq<Dataset>)
    requires ValidDatasets(ds)
    ensures Total(Sizes(Prepare(ds))) == BarCount(ds) as real
    decreases |ds|
  {
    if ds == [] {
      assert Sizes(map[]) == map[];
    } else {
      var front, last := ds[..|ds| - 1], ds[|ds| - 1];
      assert ValidDatasets(front);
      TableCounts(front);
      forall t
        ensures last.provider !in At(Prepare(front), t)
      {
        TableLaw(front, t, last.provider, Bar(0, 0));
        NewProvider(ds);
      }
      AddBarsCounts(Prepare(front), last.provider, last.bars);
    }
  }

  datatype Counts = Counts(timestamps: nat, compared: nat, missing: int, extra: nat)

  /** The timestamps that at least two providers report. */
  function Compared(table: Table): set<nat> {
    set t | t in table && |table[t]| >= 2
  }

  /** The timestamps that one provider alone reports. */
  function Extra(table: Table): set<nat> {
    set t | t in table && |table[t]| == 1
  }

  ghost predicate CountsOf(table: Table, providers: nat, c: Counts) {
    && c.timestamps == |table| && c.compared == |Compared(table)| && c.extra == |Extra(table)|
    && c.missing as real == Total(Absent(table, providers))
  }

  lemma AbsentTotal(table: Table, providers: nat)
    ensures Total(Absent(table, providers)) + Total(Sizes(table)) == Total(map t | t in table :: providers as real)
  {
    TotalAdds(Absent(table, providers), Sizes(table), map t | t in table :: providers as real);
  }

  lemma {:induction false} ConstantTotal(m: map<nat, real>, each: nat)
    requires forall k :: k in m ==> m[k] == each as real
    ensures Total(m) == (each * |m|) as real
    decreases |m|
  {
    if m != map[] {
      var k :| k in m;
      TotalRemove(m, k);
      ConstantTotal(m - {k}, each);
      assert |m - {k}| == |m| - 1 by {
        assert (m - {k}).Keys == m.Keys - {k};
        assert |m| == |m.Keys| && |m - {k}| == |(m - {k}).Keys|;
      }
      assert each * |m| == each * (|m| - 1) + each;
    }
  }

  lemma GridTotal(table: Table, providers: nat)
    ensures Total(map t | t in table :: providers as real) == (providers * |table|) as real
  {
    var grid := map t | t in table :: providers as real;
    ConstantTotal(grid, providers);
    assert grid.Keys == table.Keys;
    assert |grid| == |grid.Keys| == |table.Keys| == |table|;
  }

  lemma NoEmptyRow(ds: seq<Dataset>, t: nat)
    requires ValidDatasets(ds) && t in Prepare(ds)
    ensures |Prepare(ds)[t]| >= 1
  {
    TableLaw(ds, t, 0, Bar(0, 0));
    var i :| 0 <= i < |ds| && HasBar(ds[i], t);
    var bar :| bar in ds[i].bars && bar.openAt == t;
    assert Reports(ds, ds[i].provider, bar);
    TableLaw(ds, t, ds[i].provider, bar);
    assert ds[i].provider in Prepare(ds)[t];
  }

  /** Missing bars and reported bars together fill the providers-by-timestamps grid, and every timestamp is either
      compared or an extra bar. */
  lemma CountsBalance(ds: seq<Dataset>, c: Counts)
    requires ValidDatasets(ds) && CountsOf(Prepare(ds), |ds|, c)
    ensures c.missing + BarCount(ds) == |ds| * c.timestamps
    ensures c.compared + c.extra == c.timestamps
  {
    var table := Prepare(ds);
    TableCounts(ds);
    AbsentTotal(table, |ds|);
    GridTotal(table, |ds|);
    forall t | t in table
      ensures |table[t]| >= 1
    {
      NoEmptyRow(ds, t);
    }
    hide Total;
    hide Prepare;
    hide ValidDatasets;
    Partitioned(table);
  }

  lemma Partitioned(table: Table)
    requires forall t :: t in table ==> |table[t]| >= 1
    ensures |Compared(table)| + |Extra(table)| == |table|
  {
    assert Compared(table) + Extra(table) == table.Keys && Compared(table) !! Extra(table);
    assert |table.Keys| == |table|;
  }

  lemma InRow(ds: seq<Dataset>, t: nat, p: nat)
    requires ValidDatasets(ds)
    ensures p in At(Prepare(ds), t) <==> exists i :: 0 <= i < |ds| && ds[i].provider == p && HasBar(ds[i], t)
  {
    if p in At(Prepare(ds), t) {
      var bar := At(Prepare(ds), t)[p];
      TableLaw(ds, t, p, bar);
      var i :| 0 <= i < |ds| && ds[i].provider == p && bar in ds[i].bars;
      assert HasBar(ds[i], t);
    }
    if i :| 0 <= i < |ds| && ds[i].provider == p && HasBar(ds[i], t) {
      var bar :| bar in ds[i].bars && bar.openAt == t;
      assert Reports(ds, p, bar);
      TableLaw(ds, t, p, bar);
    }
    hide Prepare;
  }

  lemma TwoKeys(row: ByProvider)
    ensures |row| >= 2 <==> exists p, q :: p in row && q in row && p != q
  {
    assert |row| == |row.Keys|;
    if |row| >= 2 {
      var p :| p in row.Keys;
      assert |row.Keys - {p}| == |row| - 1;
      var q :| q in row.Keys - {p};
    }
    if p, q :| p in row && q in row && p != q {
      assert row.Keys == {p, q} + (row.Keys - {p, q});
      assert |{p, q}| == 2;
    }
  }

  /** Two providers report a bar that opens at `t`. */
  predicate Shared(ds: seq<Dataset>, t: nat) {
    exists i, j :: 0 <= i < j < |ds| && HasBar(ds[i], t) && HasBar(ds[j], t)
  }

  lemma SharedRow(ds: seq<Dataset>, t: nat)
    requires ValidDatasets(ds)
    ensures |At(Prepare(ds), t)| >= 2 <==> Shared(ds, t)
  {
    hide Prepare;
    hide HasBar;
    var row := At(Prepare(ds), t);
    TwoKeys(row);
    if p, q :| p in row && q in row && p != q {
      InRow(ds, t, p);
      InRow(ds, t, q);
      var i :| 0 <= i < |ds| && ds[i].provider == p && HasBar(ds[i], t);
      var j :| 0 <= j < |ds| && ds[j].provider == q && HasBar(ds[j], t);
      if i < j {
        assert HasBar(ds[i], t) && HasBar(ds[j], t);
      } else {
        assert HasBar(ds[j], t) && HasBar(ds[i], t);
      }
    }
    if Shared(ds, t) {
      var i, j :| 0 <= i < j < |ds| && HasBar(ds[i], t) && HasBar(ds[j], t);
      InRow(ds, t, ds[i].provider);
      InRow(ds, t, ds[j].provider);
    }
  }

  /** What the counts count: the timestamps at all, those that two providers share, and those that one alone reports. */
  lemma CountsMean(ds: seq<Dataset>, c: Counts) returns (all: set<nat>, shared: set<nat>, alone: set<nat>)
    requires ValidDatasets(ds) && CountsOf(Prepare(ds), |ds|, c)
    ensures c.timestamps == |all| && c.compared == |shared| && c.extra == |alone|
    ensures forall t: nat :: t in all <==> Prepared(ds, t)
    ensures forall t: nat :: t in shared <==> Shared(ds, t)
    ensures forall t: nat :: t in alone <==> Prepared(ds, t) && !Shared(ds, t)
  {
    var table := Prepare(ds);
    all, shared, alone := table.Keys, Compared(table), Extra(table);
    assert |table| == |table.Keys|;
    forall t: nat
      ensures t in all <==> Prepared(ds, t)
      ensures t in shared <==> Shared(ds, t)
      ensures t in alone <==> Prepared(ds, t) && !Shared(ds, t)
    {
      TableLaw(ds, t, 0, Bar(0, 0));
      SharedRow(ds, t);
      if t in table {
        NoEmptyRow(ds, t);
      }
      hide Prepare;
      hide Prepared;
      hide Shared;
    }
  }

  // ---------------------------------------------------------------- the source's loops

  /** One provider's dataset: `None` at a repeated open time. */
  method PrepareOne(table: Table, d: Dataset) returns (r: Option<Table>)
    ensures r == if DistinctTimes(d.bars) then Some(AddBars(table, d.provider, d.bars)) else None
  {
    var result := table;
    var times: set<nat> := {};
    for i := 0 to |d.bars|
      invariant result == AddBars(table, d.provider, d.bars[..i]) && DistinctTimes(d.bars[..i])
      invariant forall t: nat :: t in times <==> exists j :: 0 <= j < i && d.bars[j].openAt == t
    {
      assert d.bars[..i + 1][..i] == d.bars[..i];
      var bar := d.bars[i];
      if bar.openAt in times {
        return None;
      }
      times, result := times + {bar.openAt}, AddBar(result, d.provider, bar);
    }
    assert d.bars[..|d.bars|] == d.bars;
    r := Some(result);
  }

  /** `_prepare_datasets`: at least two providers, no name twice, no open time twice, at least one bar. */
  method PrepareDatasets(ds: seq<Dataset>) returns (r: Option<Table>)
    ensures r == Tabled(ds)
  {
    hide DistinctTimes;
    hide AddBars;
    if |ds| < 2 {
      return None;
    }
    var names: set<nat> := {};
    var table: Table := map[];
    for i := 0 to |ds|
      invariant table == Prepare(ds[..i]) && ValidDatasets(ds[..i])
      invariant forall p: nat :: p in names <==> exists j :: 0 <= j < i && ds[j].provider == p
    {
      assert ds[..i + 1][..i] == ds[..i];
      if ds[i].provider in names {
        return None;
      }
      var one := PrepareOne(table, ds[i]);
      if one.None? {
        return None;
      }
      names, table := names + {ds[i].provider}, one.value;
    }
    assert ds[..|ds|] == ds;
    r := if table == map[] then None else Some(table);
  }

  /** The counts after one more timestamp, which `size` of the providers report. */
  function Counted(c: Counts, size: nat, providers: nat): Counts {
    Counts(c.timestamps + 1, c.compared + (if size >= 2 then 1 else 0), c.missing + (providers as int - size as int),
           c.extra + (if size == 1 then 1 else 0))
  }

  lemma ComparedStep(done: Table, t: nat, row: ByProvider)
    requires t !in done
    ensures |Compared(done[t := row])| == |Compared(done)| + (if |row| >= 2 then 1 else 0)
  {
    var before, after := Compared(done), Compared(done[t := row]);
    assert t !in before;
    if |row| >= 2 {
      assert after == before + {t};
    } else {
      assert after == before;
    }
  }

  lemma ExtraStep(done: Table, t: nat, row: ByProvider)
    requires t !in done
    ensures |Extra(done[t := row])| == |Extra(done)| + (if |row| == 1 then 1 else 0)
  {
    var before, after := Extra(done), Extra(done[t := row]);
    assert t !in before;
    if |row| == 1 {
      assert after == before + {t};
    } else {
      assert after == before;
    }
  }

  lemma AbsentStep(done: Table, t: nat, row: ByProvider, providers: nat)
    requires t !in done
    ensures Total(Absent(done[t := row], providers)) == Total(Absent(done, providers)) + (providers as int - |row| as int) as real
  {
    hide Total;
    assert Absent(done[t := row], providers) == Absent(done, providers)[t := (providers as int - |row| as int) as real];
    TotalUpdate(Absent(done, providers), t, (providers as int - |row| as int) as real);
  }

  lemma CountStep(done: Table, t: nat, row: ByProvider, providers: nat, c: Counts)
    requires t !in done && CountsOf(done, providers, c)
    ensures CountsOf(done[t := row], providers, Counted(c, |row|, providers))
  {
    ComparedStep(done, t, row);
    ExtraStep(done, t, row);
    AbsentStep(done, t, row, providers);
    hide Total;
    hide Compared;
    hide Extra;
    hide Absent;
  }

  lemma NothingCounted(providers: nat)
    ensures CountsOf(map[], providers, Counts(0, 0, 0, 0))
  {
    assert Compared(map[]) == {} && Extra(map[]) == {} && Absent(map[], providers) == map[];
  }

  /** The counting part of `reconcile`: one pass over the timestamps. */
  method CountAll(table: Table, providers: nat) returns (c: Counts)
    ensures CountsOf(table, providers, c)
  {
    hide CountsOf;
    hide Counted;
    c := Counts(0, 0, 0, 0);
    var times := table.Keys;
    ghost var done: Table := map[];
    NothingCounted(providers);
    while times != {}
      invariant times <= table.Keys && done.Keys == table.Keys - times
      invariant forall t :: t in done ==> done[t] == table[t]
      invariant CountsOf(done, providers, c)
      decreases times
    {
      var t :| t in times;
      var row := table[t];
      CountStep(done, t, row, providers, c);
      c := Counted(c, |row|, providers);
      times, done := times - {t}, done[t := row];
    }
    assert done == table;
  }
}
