/** Counting missing bars (`_missing_bars` in data_validation/ohlcv.py), for one symbol, exchange and timeframe. */
module Gaps {
  import opened Sorting

  /** The open times in order of first appearance, without repeats. */
  function Unique(times: seq<int>): seq<int> {
    if times == [] then []
    else
      var front, last := times[..|times| - 1], times[|times| - 1];
      if last in front then Unique(front) else Unique(front) + [last]
  }

  function AtMost(): (int, int) -> bool {
    (x: int, y: int) => x <= y
  }

  function Opens(times: seq<int>): seq<int> {
    Sort(Unique(times), AtMost())
  }

  /** What is missing between two neighbouring open times. */
  function Gap(previous: int, current: int, interval: int): int
    requires interval > 0
  {
    if current - previous <= interval then 0 else (current - previous - 1) / interval
  }

  function GapSum(opens: seq<int>, interval: int): int
    requires interval > 0
  {
    if |opens| < 2 then 0
    else GapSum(opens[..|opens| - 1], interval) + Gap(opens[|opens| - 2], opens[|opens| - 1], interval)
  }

  predicate Rising(opens: seq<int>) {
    forall i, j :: 0 <= i < j < |opens| ==> opens[i] < opens[j]
  }

  predicate SameMembers(xs: seq<int>, ys: seq<int>) {
    (forall t :: t in xs ==> t in ys) && (forall t :: t in ys ==> t in xs)
  }

  lemma {:induction false} UniqueLaw(times: seq<int>)
    ensures Distinct(Unique(times)) && SameMembers(Unique(times), times)
    decreases |times|
  {
    if times != [] {
      var front, last := times[..|times| - 1], times[|times| - 1];
      UniqueLaw(front);
      assert times == front + [last];
    }
  }

  lemma AtMostIsTotal()
    ensures TotalPreorder(AtMost())
  {
  }

  /** The open times are those of the input, once each, in rising order. */
  lemma OpensLaw(times: seq<int>)
    ensures Rising(Opens(times)) && SameMembers(Opens(times), times)
  {
    var unique, opens := Unique(times), Opens(times);
    UniqueLaw(times);
    AtMostIsTotal();
    SortOrdered(unique, AtMost());
    SortElements(unique, AtMost());
    DistinctElements(unique, opens);
    hide Sort;
    hide Unique;
    forall t: int
      ensures t in opens <==> t in unique
    {
      InMultiset(unique, opens, t);
    }
    assert SameMembers(opens, times);
    forall i, j | 0 <= i < j < |opens|
      ensures opens[i] < opens[j]
    {
      assert AtMost()(opens[i], opens[j]);
    }
  }

  lemma RisingUnique(xs: seq<int>, ys: seq<int>)
    requires Rising(xs) && Rising(ys) && SameMembers(xs, ys)
    ensures xs == ys
    decreases |xs|
  {
    assert xs != [] ==> xs[0] in xs;
    assert ys != [] ==> ys[0] in ys;
    if xs != [] {
      var i :| 0 <= i < |ys| && ys[i] == xs[0];
      var j :| 0 <= j < |xs| && xs[j] == ys[0];
      assert i == 0 by {
        assert xs[0] <= xs[j] && ys[0] <= ys[i];
      }
      forall t: int
        ensures t in xs[1..] <==> t in ys[1..]
      {
        RestOfRising(xs, t);
        RestOfRising(ys, t);
      }
      assert SameMembers(xs[1..], ys[1..]);
      RisingUnique(xs[1..], ys[1..]);
      assert xs == [xs[0]] + xs[1..] && ys == [ys[0]] + ys[1..];
    }
  }

  lemma RestOfRising(xs: seq<int>, t: int)
    requires Rising(xs) && xs != []
    ensures t in xs[1..] <==> t in xs && t != xs[0]
  {
    if t in xs && t != xs[0] {
      var i :| 0 <= i < |xs| && xs[i] == t;
      assert xs[1..][i - 1] == t;
    }
    if t in xs[1..] {
      var i :| 0 <= i < |xs[1..]| && xs[1..][i] == t;
      assert xs[i + 1] == t && xs[0] < xs[i + 1];
    }
  }

  /** Neither the order in which bars arrive nor a repeated bar changes the count. */
  lemma InputOrderIrrelevant(times: seq<int>, other: seq<int>, interval: int)
    requires interval > 0 && SameMembers(times, other)
    ensures GapSum(Opens(times), interval) == GapSum(Opens(other), interval)
  {
    OpensLaw(times);
    OpensLaw(other);
    hide Opens;
    RisingUnique(Opens(times), Opens(other));
  }

  /** Every open time lies a whole number of intervals after the first. */
  predicate OnGrid(opens: seq<int>, interval: int)
    requires interval > 0
  {
    forall i :: 0 <= i < |opens| ==> (opens[i] - opens[0]) % interval == 0
  }

  lemma GapOnGrid(first: int, previous: int, current: int, interval: int)
    requires interval > 0 && previous < current && (previous - first) % interval == 0 && (current - first) % interval == 0
    ensures Gap(previous, current, interval) == (current - first) / interval - (previous - first) / interval - 1
  {
    var p, c := (previous - first) / interval, (current - first) / interval;
    assert previous - first == p * interval && current - first == c * interval;
    var steps := c - p;
    StepsApart(p, c, interval);
    if steps > 1 {
      FloorBelow(steps, interval);
    }
  }

  lemma StepsApart(p: int, c: int, interval: int)
    requires interval > 0 && p * interval < c * interval
    ensures c - p >= 1 && c * interval - p * interval == (c - p) * interval
    ensures c - p == 1 <==> c * interval - p * interval <= interval
  {
    var steps := c - p;
    assert steps * interval == c * interval - p * interval;
    assert steps <= 0 ==> steps * interval <= 0;
    assert steps >= 2 ==> (steps - 2) * interval >= 0;
    assert steps * interval == (steps - 2) * interval + 2 * interval;
  }

  lemma FloorBelow(steps: int, interval: int)
    requires interval > 0 && steps > 0
    ensures (steps * interval - 1) / interval == steps - 1
  {
    var n := steps * interval - 1;
    var q, r := n / interval, n % interval;
    assert n == q * interval + r && 0 <= r < interval;
    assert n == (steps - 1) * interval + (interval - 1);
    SameQuotient(q, r, steps - 1, interval - 1, interval);
  }

  lemma SameQuotient(q: int, r: int, p: int, s: int, interval: int)
    requires interval > 0 && 0 <= r < interval && 0 <= s < interval && q * interval + r == p * interval + s
    ensures q == p
  {
    var d := q - p;
    assert d * interval == s - r;
    assert d >= 1 ==> (d - 1) * interval >= 0;
    assert d <= -1 ==> (d + 1) * interval <= 0;
  }

  /** On one grid the gaps add up exactly: what the span could hold, less what is there. */
  lemma {:induction false} GapsAreExact(opens: seq<int>, interval: int)
    requires interval > 0 && opens != [] && Rising(opens) && OnGrid(opens, interval)
    ensures GapSum(opens, interval) == (opens[|opens| - 1] - opens[0]) / interval + 1 - |opens|
    decreases |opens|
  {
    if |opens| > 1 {
      var front := opens[..|opens| - 1];
      assert Rising(front) && OnGrid(front, interval);
      GapsAreExact(front, interval);
      GapOnGrid(opens[0], opens[|opens| - 2], opens[|opens| - 1], interval);
    }
  }

  /** The whole check on any input whose open times share a grid. */
  lemma MissingBarsAreExact(times: seq<int>, interval: int)
    requires interval > 0 && times != [] && OnGrid(Opens(times), interval)
    ensures Opens(times) != []
    ensures var opens := Opens(times);
            && GapSum(opens, interval) == (opens[|opens| - 1] - opens[0]) / interval + 1 - |set t | t in times|
            && forall t :: t in times ==> opens[0] <= t <= opens[|opens| - 1]
  {
    var opens := Opens(times);
    OpensLaw(times);
    Members(opens, times);
    hide Opens;
    hide Rising;
    hide OnGrid;
    hide GapSum;
    GapsAreExact(opens, interval);
    RisingSize(opens);
    forall t | t in times
      ensures opens[0] <= t <= opens[|opens| - 1]
    {
      Between(opens, t);
    }
  }

  lemma Members(xs: seq<int>, ys: seq<int>)
    requires SameMembers(xs, ys)
    ensures (set t | t in xs) == (set t | t in ys) && (ys != [] ==> xs != [])
  {
    if ys != [] {
      var y := ys[0];
      assert y in ys;
    }
    forall t: int
      ensures t in xs <==> t in ys
    {
    }
  }

  lemma Between(opens: seq<int>, t: int)
    requires Rising(opens) && t in opens
    ensures opens[0] <= t <= opens[|opens| - 1]
  {
    var i :| 0 <= i < |opens| && opens[i] == t;
  }

  lemma {:induction false} RisingSize(opens: seq<int>)
    requires Rising(opens)
    ensures |set t | t in opens| == |opens|
    decreases |opens|
  {
    if opens != [] {
      var front, last := opens[..|opens| - 1], opens[|opens| - 1];
      RisingSize(front);
      assert opens == front + [last];
      assert last !in front;
      assert (set t | t in opens) == (set t | t in front) + {last};
    }
  }

  /** `_missing_bars` of one group. */
  method MissingBars(times: seq<int>, interval: int) returns (missing: int)
    requires interval > 0
    ensures missing == GapSum(Opens(times), interval)
  {
    hide Sort;
    var seen: set<int> := {};
    var unique: seq<int> := [];
    for i := 0 to |times|
      invariant unique == Unique(times[..i]) && forall t: int :: t in seen <==> t in times[..i]
    {
      assert times[..i + 1][..i] == times[..i];
      assert times[..i + 1] == times[..i] + [times[i]];
      if times[i] !in seen {
        seen, unique := seen + {times[i]}, unique + [times[i]];
      }
    }
    assert times[..|times|] == times;
    var opens := Sort(unique, AtMost());
    missing := 0;
    var i := 1;
    while i < |opens|
      invariant 1 <= i && (i <= |opens| || |opens| == 0)
      invariant missing == GapSum(opens[..if i <= |opens| then i else 0], interval)
    {
      assert opens[..i + 1][..i] == opens[..i];
      var elapsed := opens[i] - opens[i - 1];
      if elapsed > interval {
        missing := missing + (elapsed - 1) / interval;
      }
      i := i + 1;
    }
    assert opens[..|opens|] == opens;
  }
}
