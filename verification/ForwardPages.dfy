/** Forward cursor pagination: Binance funding (binance_usdm.py) walks by time, and Binance aggregate trades
    (binance_public.py) ask for a time window once and then walk by trade id. */
module ForwardPages {
  import opened Results
  import opened Sorting
  import opened BackwardPages

  function FloorBefore(us: nat): nat
    requires us > 0
  {
    (us - 1) / 1000
  }

  predicate RisingIds(history: seq<Row>) {
    forall i, j :: 0 <= i < j < |history| ==> history[i].id < history[j].id
  }

  function Least(x: nat, y: nat): nat {
    if x <= y then x else y
  }

  // ---------------------------------------------------------------- what a loop fetches

  /** The rows of all pages from row `i` on; a page that ends with a `stop` row is the last. */
  function Walk(history: seq<Row>, limit: nat, i: nat, pages: nat, stop: Row -> bool): Result<seq<Row>, PageError>
    requires i <= |history| && limit > 0 && pages > 0
    decreases pages
  {
    var high := Least(i + limit, |history|);
    if i == |history| then Success([])
    else if high - i < limit || stop(history[high - 1]) then Success(history[i..high])
    else if pages == 1 then Failure(PageGuard)
    else
      var rest :- Walk(history, limit, high, pages - 1, stop);
      Success(history[i..high] + rest)
  }

  predicate Lasting(history: seq<Row>, stop: Row -> bool) {
    forall i, j :: 0 <= i < j < |history| && stop(history[i]) ==> stop(history[j])
  }

  /** The page guard's case: `size = pages * limit` rows do not reach the end. */
  predicate TooFar(history: seq<Row>, i: nat, size: nat, stop: Row -> bool) {
    0 < size && i + size <= |history| && !stop(history[i + size - 1])
  }

  /** How many rows so many full pages hold. */
  function Capacity(pages: nat, limit: nat): nat
    decreases pages
  {
    if pages == 0 then 0 else limit + Capacity(pages - 1, limit)
  }

  lemma {:induction false} CapacityIsProduct(pages: nat, limit: nat)
    ensures Capacity(pages, limit) == pages * limit
    decreases pages
  {
    if pages > 0 {
      CapacityIsProduct(pages - 1, limit);
    }
  }

  /** A walk is one stretch of history that reaches a stop row or the last row, or the guard ends it. */
  lemma {:induction false} WalkLaw(history: seq<Row>, limit: nat, i: nat, pages: nat, stop: Row -> bool) returns (high: nat)
    requires i <= |history| && limit > 0 && pages > 0 && Lasting(history, stop)
    ensures i <= high <= |history|
    ensures var f := Walk(history, limit, i, pages, stop);
            && (f.Failure? <==> TooFar(history, i, Capacity(pages, limit), stop)) && (f.Failure? ==> f.error == PageGuard)
            && (f.Success? ==> f.value == history[i..high] && (high == |history| || (high > i && stop(history[high - 1]))))
    decreases pages
  {
    hide Lasting;
    hide Walk;
    hide TooFar;
    high := Least(i + limit, |history|);
    CapacityGrows(pages, limit);
    if i == |history| || high - i < limit || stop(history[high - 1]) || pages == 1 {
      LastPage(history, limit, i, pages, stop, high);
    } else {
      var size, first := Capacity(pages, limit), high;
      high := WalkLaw(history, limit, first, pages - 1, stop);
      hide Capacity;
      Onwards(history, limit, i, pages, stop, size, high);
    }
  }

  lemma LastPage(history: seq<Row>, limit: nat, i: nat, pages: nat, stop: Row -> bool, high: nat)
    requires i <= |history| && limit > 0 && pages > 0 && Lasting(history, stop) && high == Least(i + limit, |history|)
    requires i == |history| || high - i < limit || stop(history[high - 1]) || pages == 1
    ensures var f, far := Walk(history, limit, i, pages, stop), TooFar(history, i, Capacity(pages, limit), stop);
            && (f.Failure? <==> far) && (f.Failure? ==> f.error == PageGuard)
            && (f.Success? ==> f.value == history[i..high] && (high == |history| || (high > i && stop(history[high - 1]))))
  {
    CapacityGrows(pages, limit);
    var size := Capacity(pages, limit);
    hide Capacity;
    if i < high && stop(history[high - 1]) {
      StopEnds(history, i, high, size, stop);
    }
    hide Lasting;
    if pages == 1 {
      assert size == limit by {
        OnePage(limit);
      }
    }
  }

  lemma OnePage(limit: nat)
    ensures Capacity(1, limit) == limit
  {
    assert Capacity(0, limit) == 0;
  }

  lemma CapacityGrows(pages: nat, limit: nat)
    requires pages > 0 && limit > 0
    ensures Capacity(pages, limit) == limit + Capacity(pages - 1, limit)
    ensures pages > 1 ==> Capacity(pages - 1, limit) > 0
  {
    if pages > 1 {
      assert Capacity(pages - 1, limit) == limit + Capacity(pages - 2, limit);
    }
  }

  lemma StopEnds(history: seq<Row>, i: nat, high: nat, size: nat, stop: Row -> bool)
    requires Lasting(history, stop) && i < high <= |history| && high - i <= size && stop(history[high - 1])
    ensures !TooFar(history, i, size, stop)
  {
  }

  lemma Onwards(history: seq<Row>, limit: nat, i: nat, pages: nat, stop: Row -> bool, size: nat, high: nat)
    requires limit > 0 && pages > 1 && size > limit && i + limit <= high <= |history| && !stop(history[i + limit - 1])
    ensures var rest, f := Walk(history, limit, i + limit, pages - 1, stop), Walk(history, limit, i, pages, stop);
            && (rest.Failure? ==> f == rest)
            && (rest.Success? && rest.value == history[i + limit..high] ==> f == Success(history[i..high]))
            && (TooFar(history, i, size, stop) <==> TooFar(history, i + limit, size - limit, stop))
  {
    assert history[i..i + limit] + history[i + limit..high] == history[i..high];
  }

  // ---------------------------------------------------------------- one page

  /** The loop over one page: keys must be new, rows in the window are kept. */
  method TakePage(rows: seq<Row>, key: Row -> nat, start: int, end: int, seen: set<nat>, kept: seq<Row>, ghost got: seq<Row>)
    returns (ok: bool, seen': set<nat>, kept': seq<Row>, top: nat, latest: nat)
    requires rows != [] && KeysApart(key, rows) && Keyed(seen, got, key)
    requires forall i :: 0 <= i < |rows| ==> key(rows[i]) !in seen
    ensures ok && kept' == kept + Filter(rows, InWindow(start, end)) && Keyed(seen', got + rows, key)
    ensures (exists i :: 0 <= i < |rows| && key(rows[i]) == top) && forall i :: 0 <= i < |rows| ==> key(rows[i]) <= top
    ensures (exists i :: 0 <= i < |rows| && rows[i].ms == latest) && forall i :: 0 <= i < |rows| ==> rows[i].ms <= latest
  {
    hide Keyed;
    hide Filter;
    ok, seen', kept', top, latest := true, seen, kept, key(rows[0]), rows[0].ms;
    var within := InWindow(start, end);
    NoRowYet(rows, got, kept, within);
    for i := 0 to |rows|
      invariant ok && kept' == kept + Filter(rows[..i], within) && Keyed(seen', got + rows[..i], key)
      invariant forall j :: i <= j < |rows| ==> key(rows[j]) !in seen'
      invariant (exists j :: 0 <= j < |rows| && key(rows[j]) == top) && forall j :: 0 <= j < i ==> key(rows[j]) <= top
      invariant (exists j :: 0 <= j < |rows| && rows[j].ms == latest) && forall j :: 0 <= j < i ==> rows[j].ms <= latest
    {
      OneRowMore(rows, i, within);
      top := if key(rows[i]) > top then key(rows[i]) else top;
      latest := if rows[i].ms > latest then rows[i].ms else latest;
      if key(rows[i]) in seen' {
        return false, seen', kept', top, latest;
      }
      KeyedGrows(seen', got + rows[..i], key, rows[i]);
      Longer(got, rows, i);
      seen' := seen' + {key(rows[i])};
      if within(rows[i]) {
        kept' := kept' + [rows[i]];
      }
    }
    assert rows[..|rows|] == rows;
  }

  lemma NoRowYet(rows: seq<Row>, got: seq<Row>, kept: seq<Row>, keep: Row -> bool)
    ensures got + rows[..0] == got && kept + Filter(rows[..0], keep) == kept
  {
  }

  lemma Longer(got: seq<Row>, rows: seq<Row>, i: nat)
    requires i < |rows|
    ensures got + rows[..i] + [rows[i]] == got + rows[..i + 1]
  {
  }

  /** A page of rows from row `i` on repeats no key of the rows before it, and its last row is its greatest. */
  lemma PageAhead(history: seq<Row>, key: Row -> nat, seen: set<nat>, got: seq<Row>, from: nat, i: nat, high: nat, rows: seq<Row>)
    requires from <= i < high <= |history| && multiset(rows) == multiset(history[i..high])
    requires forall a, b :: 0 <= a < b < |history| ==> key(history[a]) < key(history[b])
    requires Keyed(seen, got, key) && multiset(got) == multiset(history[from..i])
    ensures rows != [] && |rows| == high - i && KeysApart(key, rows) && forall j :: 0 <= j < |rows| ==> key(rows[j]) !in seen
    ensures multiset(got + rows) == multiset(history[from..high])
  {
    var page := history[i..high];
    assert |rows| == |multiset(rows)| == |multiset(page)| == |page|;
    PageKeysApart(key, page, rows);
    forall j | 0 <= j < |rows|
      ensures key(rows[j]) !in seen
    {
      InMultiset(rows, page, rows[j]);
      var l :| 0 <= l < |page| && page[l] == rows[j];
      assert history[i + l] == rows[j];
      NotSeen(history, key, seen, got, from, i, i + l);
    }
    assert history[from..high] == history[from..i] + page;
  }

  lemma SeenIsBefore(history: seq<Row>, key: Row -> nat, seen: set<nat>, got: seq<Row>, from: nat, i: nat, k: nat)
    requires from <= i <= |history| && Keyed(seen, got, key) && multiset(got) == multiset(history[from..i]) && k in seen
    ensures exists n :: from <= n < i && key(history[n]) == k
  {
    var m :| 0 <= m < |got| && key(got[m]) == k;
    var before := history[from..i];
    InMultiset(got, before, got[m]);
    var n :| 0 <= n < |before| && before[n] == got[m];
    assert history[from + n] == got[m];
  }

  lemma NotSeen(history: seq<Row>, key: Row -> nat, seen: set<nat>, got: seq<Row>, from: nat, i: nat, l: nat)
    requires from <= i <= l < |history|
    requires forall a, b :: 0 <= a < b < |history| ==> key(history[a]) < key(history[b])
    requires Keyed(seen, got, key) && multiset(got) == multiset(history[from..i])
    ensures key(history[l]) !in seen
  {
    if key(history[l]) in seen {
      SeenIsBefore(history, key, seen, got, from, i, key(history[l]));
    }
  }

  /** The greatest key and the latest time of a page are those of its last row. */
  lemma TopOfPage(page: seq<Row>, key: Row -> nat, rows: seq<Row>, top: nat, latest: nat)
    requires page != [] && multiset(rows) == multiset(page) && Chronological(page)
    requires forall a, b :: 0 <= a < b < |page| ==> key(page[a]) < key(page[b])
    requires (exists i :: 0 <= i < |rows| && key(rows[i]) == top) && forall i :: 0 <= i < |rows| ==> key(rows[i]) <= top
    requires (exists i :: 0 <= i < |rows| && rows[i].ms == latest) && forall i :: 0 <= i < |rows| ==> rows[i].ms <= latest
    ensures top == key(page[|page| - 1]) && latest == page[|page| - 1].ms
  {
    var last := page[|page| - 1];
    InMultiset(rows, page, last);
    var j :| 0 <= j < |rows| && rows[j] == last;
    var i :| 0 <= i < |rows| && key(rows[i]) == top;
    InMultiset(rows, page, rows[i]);
    var k :| 0 <= k < |page| && page[k] == rows[i];
    var l :| 0 <= l < |rows| && rows[l].ms == latest;
    InMultiset(rows, page, rows[l]);
    var m :| 0 <= m < |page| && page[m] == rows[l];
  }

  // ---------------------------------------------------------------- a time window of history

  type WindowServer = (nat, nat) -> seq<Row>

  /** The rows from `from` to `to`, both inclusive. */
  function Span(history: seq<Row>, from: nat, to: nat): (nat, nat) {
    var (a, b) := (Older(history, from), Older(history, to + 1));
    (a, if b < a then a else b)
  }

  function OldestWithin(history: seq<Row>, from: nat, to: nat, limit: nat): seq<Row> {
    var (a, b) := Span(history, from, to);
    history[a..Least(a + limit, b)]
  }

  /** A page holds the oldest `limit` rows of the requested span, in any order. */
  ghost predicate ServesWindow(serve: WindowServer, history: seq<Row>, limit: nat) {
    forall from: nat, to: nat :: multiset(serve(from, to)) == multiset(OldestWithin(history, from, to, limit))
  }

  /** The millisecond bounds sent to the provider select exactly the rows of the microsecond window. */
  lemma SpanIsWindow(history: seq<Row>, start: nat, end: nat)
    requires Chronological(history) && start < end
    ensures var (a, b) := Span(history, CeilingMs(start), FloorBefore(end));
            history[a..b] == Wanted(history, start, end)
  {
    var (a, b) := Span(history, CeilingMs(start), FloorBefore(end));
    OlderLaw(history, CeilingMs(start));
    OlderLaw(history, FloorBefore(end) + 1);
    hide Older;
    hide Chronological;
    Inside(history, start, end, a, b);
    FilterStretch(history[..a], history[a..b], history[b..], InWindow(start, end));
    ThreeParts(history, a, b);
    FilterAll(history[a..b], InWindow(start, end));
  }

  lemma Inside(history: seq<Row>, start: nat, end: nat, a: nat, b: nat)
    requires start < end && a <= b <= |history|
    requires forall i :: 0 <= i < |history| ==> (i < a <==> history[i].ms < CeilingMs(start))
    requires forall i :: a <= i < |history| ==> (i < b <==> history[i].ms < FloorBefore(end) + 1)
    ensures forall x :: x in history[..a] || x in history[b..] ==> !InWindow(start, end)(x)
    ensures forall x :: x in history[a..b] ==> InWindow(start, end)(x)
  {
  }

  // ---------------------------------------------------------------- Binance funding

  function PastEnd(to: nat): Row -> bool {
    (r: Row) => r.ms + 1 > to
  }

  function Time(r: Row): nat {
    r.ms
  }

  lemma SliceOfSlice(history: seq<Row>, a: nat, b: nat, i: nat, high: nat)
    requires a <= b <= |history| && i <= high <= b - a
    ensures history[a..b][i..high] == history[a + i..a + high]
    ensures high > 0 ==> history[a..b][high - 1] == history[a + high - 1]
  {
    var part := history[a..b];
    assert |part[i..high]| == |history[a + i..a + high]|;
    forall k | 0 <= k < high - i
      ensures part[i..high][k] == history[a + i..a + high][k]
    {
      assert part[i + k] == history[a + i + k];
    }
  }

  lemma AfterTime(history: seq<Row>, k: nat)
    requires DistinctTimes(history) && 0 < k <= |history|
    ensures Older(history, history[k - 1].ms + 1) == k
  {
    OlderLaw(history, history[k - 1].ms + 1);
    assert k < |history| ==> history[k - 1].ms < history[k].ms;
  }

  /** A page from a cursor inside the window is the next stretch of the window's rows. */
  lemma NextFunding(history: seq<Row>, a: nat, w: seq<Row>, i: nat, cursor: nat, to: nat, limit: nat)
    requires DistinctTimes(history) && limit > 0 && a + |w| == Older(history, to + 1) && w == history[a..a + |w|]
    requires i <= |w| && Older(history, cursor) == a + i
    ensures var high := Least(i + limit, |w|);
            && OldestWithin(history, cursor, to, limit) == w[i..high]
            && (i < |w| ==> Older(history, w[high - 1].ms + 1) == a + high && cursor <= w[high - 1].ms)
  {
    hide Older;
    var high := Least(i + limit, |w|);
    SliceOfSlice(history, a, a + |w|, i, high);
    if i < |w| {
      AfterTime(history, a + high);
      NotOlder(history, cursor, a + high - 1);
    }
  }

  lemma NotOlder(history: seq<Row>, cursor: nat, k: nat)
    requires DistinctTimes(history) && Older(history, cursor) <= k < |history|
    ensures cursor <= history[k].ms
  {
    OlderLaw(history, cursor);
  }

  ghost predicate Walked(whole: Result<seq<Row>, PageError>, got: seq<Row>, rest: Result<seq<Row>, PageError>) {
    match rest
    case Failure(e) => whole == Failure(e)
    case Success(rows) => whole == Success(got + rows)
  }

  lemma WalkPage(history: seq<Row>, limit: nat, from: nat, i: nat, pages: nat, stop: Row -> bool, whole: Result<seq<Row>, PageError>)
    requires from <= i < |history| && limit > 0 && pages > 0
    requires Walked(whole, history[from..i], Walk(history, limit, i, pages, stop))
    ensures var high := Least(i + limit, |history|);
            if high - i < limit || stop(history[high - 1]) then whole == Success(history[from..high])
            else if pages == 1 then whole == Failure(PageGuard)
            else Walked(whole, history[from..high], Walk(history, limit, high, pages - 1, stop))
  {
    var high := Least(i + limit, |history|);
    assert history[from..i] + history[i..high] == history[from..high];
    if !(high - i < limit || stop(history[high - 1])) && pages > 1 {
      var rest := Walk(history, limit, high, pages - 1, stop);
      if rest.Success? {
        assert history[from..i] + (history[i..high] + rest.value) == history[from..high] + rest.value;
      }
    }
  }

  lemma WalkDone(history: seq<Row>, limit: nat, from: nat, pages: nat, stop: Row -> bool, whole: Result<seq<Row>, PageError>)
    requires from <= |history| && limit > 0 && pages > 0
    requires Walked(whole, history[from..], Walk(history, limit, |history|, pages, stop))
    ensures whole == Success(history[from..])
  {
    assert history[from..] + [] == history[from..];
  }

  lemma NothingWalked(history: seq<Row>, limit: nat, i: nat, pages: nat, stop: Row -> bool, start: int, end: int, key: Row -> nat)
    requires i <= |history| && limit > 0 && pages > 0
    ensures var f := Walk(history, limit, i, pages, stop); Walked(f, history[i..i], f)
    ensures Keyed({}, [], key) && multiset(Filter([], InWindow(start, end))) == multiset(history[i..i])
  {
    var f := Walk(history, limit, i, pages, stop);
    if f.Success? {
      assert history[i..i] + f.value == f.value;
    }
  }

  lemma KeptGrows(kept: seq<Row>, got: seq<Row>, rows: seq<Row>, keep: Row -> bool)
    requires multiset(kept) == multiset(Filter(got, keep))
    ensures multiset(kept + Filter(rows, keep)) == multiset(Filter(got + rows, keep))
  {
    FilterAppend(got, rows, keep);
  }

  lemma KeptSorted(history: seq<Row>, tie: Row -> nat, kept: seq<Row>, got: seq<Row>, rows: seq<Row>, keep: Row -> bool)
    requires KeysApart(tie, history) && multiset(kept) == multiset(Filter(got, keep)) && multiset(got) == multiset(rows)
    requires forall x :: x in rows ==> x in history
    ensures Sort(kept, ByTime(tie)) == Sort(Filter(rows, keep), ByTime(tie))
  {
    FilterElements(got, rows, keep);
    forall x | x in Filter(rows, keep)
      ensures x in history
    {
      FilterMember(rows, keep, x);
    }
    SortedAlike(history, tie, kept, Filter(rows, keep));
  }

  lemma PartOf(history: seq<Row>, a: nat, b: nat)
    requires a <= b <= |history|
    ensures forall x :: x in history[a..b] ==> x in history
  {
  }

  lemma WindowKeys(history: seq<Row>, a: nat, b: nat)
    requires DistinctTimes(history) && a <= b <= |history|
    ensures var w := history[a..b]; Chronological(w) && forall i, j :: 0 <= i < j < |w| ==> Time(w[i]) < Time(w[j])
  {
  }

  /** What a forward loop holds after the first `i` rows of its stretch. */
  ghost predicate Standing(w: seq<Row>, key: Row -> nat, start: int, end: int, seen: set<nat>, kept: seq<Row>, got: seq<Row>, i: nat) {
    && i <= |w| && Keyed(seen, got, key) && multiset(got) == multiset(w[0..i])
    && multiset(kept) == multiset(Filter(got, InWindow(start, end)))
  }

  predicate RisingKeys(key: Row -> nat, w: seq<Row>) {
    forall a, b :: 0 <= a < b < |w| ==> key(w[a]) < key(w[b])
  }

  lemma StandingStart(w: seq<Row>, key: Row -> nat, start: int, end: int)
    ensures Standing(w, key, start, end, {}, [], [], 0)
  {
    assert w[0..0] == [];
  }

  lemma BeforePage(w: seq<Row>, key: Row -> nat, start: int, end: int, seen: set<nat>, kept: seq<Row>, got: seq<Row>, i: nat, high: nat, rows: seq<Row>)
    requires Standing(w, key, start, end, seen, kept, got, i) && RisingKeys(key, w)
    requires i < high <= |w| && multiset(rows) == multiset(w[i..high])
    ensures rows != [] && |rows| == high - i && KeysApart(key, rows) && Keyed(seen, got, key)
    ensures forall j :: 0 <= j < |rows| ==> key(rows[j]) !in seen
  {
    hide Keyed;
    PageAhead(w, key, seen, got, 0, i, high, rows);
  }

  lemma AfterPage(w: seq<Row>, key: Row -> nat, start: int, end: int, seen: set<nat>, kept: seq<Row>, got: seq<Row>, i: nat, high: nat,
                  rows: seq<Row>, seen': set<nat>)
    requires Standing(w, key, start, end, seen, kept, got, i) && RisingKeys(key, w)
    requires i < high <= |w| && multiset(rows) == multiset(w[i..high]) && Keyed(seen', got + rows, key)
    ensures Standing(w, key, start, end, seen', kept + Filter(rows, InWindow(start, end)), got + rows, high)
  {
    hide Keyed;
    PageAhead(w, key, seen, got, 0, i, high, rows);
    KeptGrows(kept, got, rows, InWindow(start, end));
  }

  lemma StandingSorted(history: seq<Row>, tie: Row -> nat, w: seq<Row>, key: Row -> nat, start: int, end: int, seen: set<nat>,
                       kept: seq<Row>, got: seq<Row>, i: nat)
    requires KeysApart(tie, history) && Standing(w, key, start, end, seen, kept, got, i)
    requires forall x :: x in w ==> x in history
    ensures Sort(kept, ByTime(tie)) == Sort(Filter(w[0..i], InWindow(start, end)), ByTime(tie))
  {
    hide Keyed;
    PartOf(w, 0, i);
    KeptSorted(history, tie, kept, got, w[0..i], InWindow(start, end));
  }

  /** Where a funding loop stands: the cursor is the first row not yet read, and what remains is a shorter walk. */
  ghost predicate Poised(history: seq<Row>, a: nat, w: seq<Row>, i: nat, cursor: nat, to: nat, limit: nat, pages: nat,
                         whole: Result<seq<Row>, PageError>)
    requires limit > 0 && pages > 0
  {
    && a + |w| == Older(history, to + 1) && w == history[a..a + |w|] && i <= |w| && Older(history, cursor) == a + i
    && Walked(whole, w[0..i], Walk(w, limit, i, pages, PastEnd(to)))
  }

  /** One page of the funding loop: it is empty at the end of the window; otherwise it is the next stretch, and
      either ends the walk, or meets the guard, or leaves the loop poised at the row after it. */
  lemma FundingPage(history: seq<Row>, a: nat, w: seq<Row>, i: nat, cursor: nat, to: nat, limit: nat, pages: nat,
                    whole: Result<seq<Row>, PageError>, rows: seq<Row>)
    requires limit > 0 && pages > 0 && DistinctTimes(history) && Poised(history, a, w, i, cursor, to, limit, pages, whole)
    requires multiset(rows) == multiset(OldestWithin(history, cursor, to, limit))
    ensures var high := Least(i + limit, |w|);
            if rows == [] then whole == Success(w[0..i])
            else
              && i < high <= |w| && multiset(rows) == multiset(w[i..high]) && |rows| == high - i && cursor <= w[high - 1].ms
              && var next := w[high - 1].ms + 1;
                 if |rows| < limit || next > to then whole == Success(w[0..high])
                 else if pages == 1 then whole == Failure(PageGuard)
                 else Poised(history, a, w, high, next, to, limit, pages - 1, whole)
  {
    hide Walk;
    hide Older;
    hide Walked;
    hide OldestWithin;
    hide DistinctTimes;
    var high := Least(i + limit, |w|);
    NextFunding(history, a, w, i, cursor, to, limit);
    SameLength(rows, w[i..high]);
    if rows == [] {
      assert w[0..i] == w[0..];
      WalkDone(w, limit, 0, pages, PastEnd(to), whole);
    } else {
      WalkPage(w, limit, 0, i, pages, PastEnd(to), whole);
    }
  }

  lemma FundingStart(history: seq<Row>, start: nat, end: nat, limit: nat, pages: nat) returns (a: nat)
    requires limit > 0 && pages > 0 && start < end && DistinctTimes(history)
    ensures var w, to := Wanted(history, start, end), FloorBefore(end);
            && Poised(history, a, w, 0, CeilingMs(start), to, limit, pages, Walk(w, limit, 0, pages, PastEnd(to)))
            && RisingKeys(Time, w) && Chronological(w) && forall x :: x in w ==> x in history
  {
    hide Wanted;
    hide Older;
    hide Walk;
    hide Walked;
    hide Keyed;
    var to, w := FloorBefore(end), Wanted(history, start, end);
    a := Older(history, CeilingMs(start));
    WindowSpan(history, start, end);
    var b := Older(history, to + 1);
    WindowKeys(history, a, b);
    PartOf(history, a, b);
    NothingWalked(w, limit, 0, pages, PastEnd(to), start, end, Time);
    hide Chronological;
    hide DistinctTimes;
    assert |w| == b - a && w == history[a..a + |w|];
  }

  /** `fetch_funding_rates` of binance_usdm.py. */
  method FetchFunding(serve: WindowServer, ghost history: seq<Row>, tie: Row -> nat, start: nat, end: nat, limit: nat, pages: nat)
    returns (r: Result<seq<Row>, PageError>)
    requires limit > 0 && pages > 0 && start < end && ServesWindow(serve, history, limit)
    requires DistinctTimes(history) && KeysApart(tie, history)
    ensures match Walk(Wanted(history, start, end), limit, 0, pages, PastEnd(FloorBefore(end)))
            case Failure(e) => r == Failure(e)
            case Success(rows) => r == Success(Sort(Filter(rows, InWindow(start, end)), ByTime(tie)))
  {
    hide Walk;
    hide Keyed;
    hide Filter;
    hide Sort;
    hide Older;
    hide KeysApart;
    hide Walked;
    hide Standing;
    hide Poised;
    hide Wanted;
    hide OldestWithin;
    hide DistinctTimes;
    hide RisingKeys;
    var to: nat := FloorBefore(end);
    var cursor: nat := CeilingMs(start);
    var cursors: set<nat> := {cursor};
    var seen: set<nat> := {};
    var kept: seq<Row> := [];
    ghost var a := FundingStart(history, start, end, limit, pages);
    ghost var w: seq<Row>, got: seq<Row>, i: nat := Wanted(history, start, end), [], 0;
    ghost var whole := Walk(w, limit, 0, pages, PastEnd(to));
    StandingStart(w, Time, start, end);
    var page, done := 1, false;
    while !done
      invariant 1 <= page <= pages && i <= |w| && Standing(w, Time, start, end, seen, kept, got, i)
      invariant !done ==> Poised(history, a, w, i, cursor, to, limit, pages - page + 1, whole) && forall c :: c in cursors ==> c <= cursor
      invariant done ==> whole == Success(w[0..i])
      decreases if done then 0 else 1, pages - page
    {
      var rows := serve(cursor, to);
      FundingPage(history, a, w, i, cursor, to, limit, pages - page + 1, whole, rows);
      if rows == [] {
        done := true;
      } else {
        ghost var high := Least(i + limit, |w|);
        var ok, top, latest;
        ok, seen, kept, top, latest, got := TakeStretch(w, Time, i, high, rows, start, end, seen, kept, got);
        if !ok {
          return Failure(DuplicateRow);
        }
        i := high;
        var next := top + 1;
        if |rows| < limit || next > to {
          done := true;
        } else if next <= cursor || next in cursors {
          return Failure(CursorStuck);
        } else if page == pages {
          return Failure(PageGuard);
        } else {
          cursors, page := cursors + {next}, page + 1;
        }
        cursor := next;
      }
    }
    StandingSorted(history, tie, w, Time, start, end, seen, kept, got, i);
    r := Success(Sort(kept, ByTime(tie)));
  }

  /** The loop over one page that is the next stretch of the rows. */
  method TakeStretch(ghost w: seq<Row>, key: Row -> nat, ghost i: nat, ghost high: nat, rows: seq<Row>, start: int, end: int,
                     seen: set<nat>, kept: seq<Row>, ghost got: seq<Row>)
    returns (ok: bool, seen': set<nat>, kept': seq<Row>, top: nat, latest: nat, ghost got': seq<Row>)
    requires Standing(w, key, start, end, seen, kept, got, i) && RisingKeys(key, w) && Chronological(w)
    requires i < high <= |w| && multiset(rows) == multiset(w[i..high])
    ensures ok && Standing(w, key, start, end, seen', kept', got', high)
    ensures top == key(w[high - 1]) && latest == w[high - 1].ms
  {
    BeforePage(w, key, start, end, seen, kept, got, i, high, rows);
    ok, seen', kept', top, latest := TakePage(rows, key, start, end, seen, kept, got);
    hide Keyed;
    hide Filter;
    hide Standing;
    AfterPage(w, key, start, end, seen, kept, got, i, high, rows, seen');
    PageTop(w, key, i, high, rows, top, latest);
    got' := got + rows;
  }

  lemma WindowSpan(history: seq<Row>, start: nat, end: nat)
    requires Chronological(history) && start < end
    ensures var a, b := Older(history, CeilingMs(start)), Older(history, FloorBefore(end) + 1);
            a <= b && history[a..b] == Wanted(history, start, end) && Span(history, CeilingMs(start), FloorBefore(end)) == (a, b)
  {
    hide Older;
    hide Wanted;
    hide Chronological;
    SpanIsWindow(history, start, end);
    Later(history, CeilingMs(start), FloorBefore(end) + 1);
  }

  lemma {:induction false} Later(history: seq<Row>, from: nat, to: nat)
    requires from <= to
    ensures Older(history, from) <= Older(history, to)
    decreases |history|
  {
    if history != [] {
      Later(history[1..], from, to);
    }
  }

  lemma SameLength(rows: seq<Row>, page: seq<Row>)
    requires multiset(rows) == multiset(page)
    ensures |rows| == |page|
  {
    assert |rows| == |multiset(rows)| == |multiset(page)| == |page|;
  }

  lemma PageTop(w: seq<Row>, key: Row -> nat, i: nat, high: nat, rows: seq<Row>, top: nat, latest: nat)
    requires i < high <= |w| && multiset(rows) == multiset(w[i..high]) && RisingKeys(key, w) && Chronological(w)
    requires (exists i :: 0 <= i < |rows| && key(rows[i]) == top) && forall i :: 0 <= i < |rows| ==> key(rows[i]) <= top
    requires (exists i :: 0 <= i < |rows| && rows[i].ms == latest) && forall i :: 0 <= i < |rows| ==> rows[i].ms <= latest
    ensures top == key(w[high - 1]) && latest == w[high - 1].ms
  {
    TopOfPage(w[i..high], key, rows, top, latest);
  }

  /** One funding record per millisecond: every record of the window is fetched exactly once, or the page guard
      stops the loop, which happens exactly when `pages` full pages end before the window's last millisecond. */
  lemma FundingFetchesAll(history: seq<Row>, start: nat, end: nat, limit: nat, pages: nat)
    requires DistinctTimes(history) && start < end && limit > 0 && pages > 0
    ensures var w, stop := Wanted(history, start, end), PastEnd(FloorBefore(end));
            var f := Walk(w, limit, 0, pages, stop);
            && (f.Failure? <==> TooFar(w, 0, pages * limit, stop)) && (f.Failure? ==> f.error == PageGuard)
            && (f.Success? ==> f.value == w && Filter(f.value, InWindow(start, end)) == w)
  {
    var w, stop := Wanted(history, start, end), PastEnd(FloorBefore(end));
    var (a, b) := Span(history, CeilingMs(start), FloorBefore(end));
    SpanIsWindow(history, start, end);
    WindowKeys(history, a, b);
    AllWithin(history, start, end);
    StopIsLasting(w, FloorBefore(end));
    var high := WalkLaw(w, limit, 0, pages, stop);
    CapacityIsProduct(pages, limit);
    hide Walk;
    hide Wanted;
    hide Older;
    StopIsLast(w, start, end, high);
    assert w[0..|w|] == w;
  }

  lemma StopIsLasting(w: seq<Row>, to: nat)
    requires Chronological(w)
    ensures Lasting(w, PastEnd(to))
  {
  }

  lemma StopIsLast(w: seq<Row>, start: nat, end: nat, high: nat)
    requires start < end && high <= |w| && forall i, j :: 0 <= i < j < |w| ==> Time(w[i]) < Time(w[j])
    requires forall i :: 0 <= i < |w| ==> InWindow(start, end)(w[i])
    ensures high > 0 && PastEnd(FloorBefore(end))(w[high - 1]) ==> high == |w|
  {
    if 0 < high < |w| {
      assert Time(w[high - 1]) < Time(w[high]) && InWindow(start, end)(w[high]);
    }
  }

  lemma AllWithin(history: seq<Row>, start: nat, end: nat)
    ensures var w := Wanted(history, start, end);
            Filter(w, InWindow(start, end)) == w && forall i :: 0 <= i < |w| ==> InWindow(start, end)(w[i])
  {
    var w, within := Wanted(history, start, end), InWindow(start, end);
    forall x | x in w
      ensures within(x)
    {
      FilterMember(history, within, x);
    }
    FilterAll(w, within);
    forall i | 0 <= i < |w|
      ensures within(w[i])
    {
      assert w[i] in w;
    }
  }

  // ---------------------------------------------------------------- Binance aggregate trades

  function Id(r: Row): nat {
    r.id
  }

  /** How many rows of the history have a smaller id. */
  function IdIndex(history: seq<Row>, id: nat): (k: nat)
    ensures k <= |history|
  {
    if history == [] || history[0].id >= id then 0 else 1 + IdIndex(history[1..], id)
  }

  function FromId(history: seq<Row>, id: nat, limit: nat): seq<Row> {
    var k := IdIndex(history, id);
    history[k..Least(k + limit, |history|)]
  }

  type IdServer = nat -> seq<Row>

  /** A page by id holds the `limit` rows from that id on, in any order and with no bound in time. */
  ghost predicate ServesIds(serve: IdServer, history: seq<Row>, limit: nat) {
    forall id: nat :: multiset(serve(id)) == multiset(FromId(history, id, limit))
  }

  lemma {:induction false} IdLaw(history: seq<Row>, id: nat)
    requires RisingIds(history)
    ensures forall i :: 0 <= i < |history| ==> (i < IdIndex(history, id) <==> history[i].id < id)
    decreases |history|
  {
    if history != [] && history[0].id < id {
      var rest := history[1..];
      IdLaw(rest, id);
      assert forall i :: 0 < i < |history| ==> history[i] == rest[i - 1];
    }
  }

  function AtEnd(end: nat): Row -> bool {
    (r: Row) => 1000 * r.ms >= end
  }

  /** The rows of all pages, where `rows` starts at the window and `within` of them are inside it: a short first page
      ends the run, and after a full one the walk goes on by id. */
  function AggFetched(rows: seq<Row>, within: nat, limit: nat, pages: nat, end: nat): Result<seq<Row>, PageError>
    requires within <= |rows| && limit > 0 && pages > 0
  {
    if within < limit then Success(rows[..within]) else Walk(rows, limit, 0, pages, AtEnd(end))
  }

  /** The history from the window's first row on. */
  function FromWindow(history: seq<Row>, start: nat): seq<Row> {
    history[Older(history, CeilingMs(start))..]
  }

  function Within(history: seq<Row>, start: nat, end: nat): nat
    requires end > 0
  {
    var (a, b) := Span(history, CeilingMs(start), FloorBefore(end));
    b - a
  }

  /** Where a trade loop stands after its first page. */
  ghost predicate PoisedById(history: seq<Row>, a: nat, w: seq<Row>, i: nat, cursor: nat, end: nat, limit: nat, pages: nat,
                             whole: Result<seq<Row>, PageError>)
    requires limit > 0 && pages > 0
  {
    && a <= |history| && w == history[a..] && i <= |w| && IdIndex(history, cursor) == a + i
    && Walked(whole, w[0..i], Walk(w, limit, i, pages, AtEnd(end)))
  }

  lemma NextById(history: seq<Row>, a: nat, i: nat, cursor: nat, limit: nat)
    requires RisingIds(history) && limit > 0 && a + i <= |history| && IdIndex(history, cursor) == a + i
    ensures var w := history[a..]; FromId(history, cursor, limit) == w[i..Least(i + limit, |w|)]
    ensures var w := history[a..]; i < |w| ==> cursor <= w[Least(i + limit, |w|) - 1].id
  {
    var w := history[a..];
    var high := Least(i + limit, |w|);
    SuffixPage(history, a, i, high);
    IdLaw(history, cursor);
    hide IdIndex;
    hide RisingIds;
  }

  lemma SuffixPage(history: seq<Row>, a: nat, i: nat, high: nat)
    requires i <= high && a + high <= |history|
    ensures history[a..][i..high] == history[a + i..a + high]
    ensures i < high ==> history[a..][high - 1] == history[a + high - 1]
  {
  }

  lemma AfterRow(history: seq<Row>, a: nat, high: nat)
    requires RisingIds(history) && 0 < high && a + high <= |history|
    ensures IdIndex(history, history[a..][high - 1].id + 1) == a + high
  {
    var n := a + high;
    SuffixPage(history, a, 0, high);
    hide IdIndex;
    NextIdIndex(history, n);
  }

  lemma NextIdIndex(history: seq<Row>, n: nat)
    requires RisingIds(history) && 0 < n <= |history|
    ensures IdIndex(history, history[n - 1].id + 1) == n
  {
    var id := history[n - 1].id + 1;
    IdLaw(history, id);
    hide IdIndex;
    assert n < |history| ==> history[n - 1].id < history[n].id;
    assert n - 1 < IdIndex(history, id);
  }

  /** What a page leaves: the end of the run, the guard, or a loop poised to go on by id after the page. */
  ghost predicate PageLeft(history: seq<Row>, a: nat, w: seq<Row>, i: nat, high: nat, end: nat, limit: nat, pages: nat,
                           whole: Result<seq<Row>, PageError>, rows: seq<Row>)
    requires limit > 0 && pages > 0 && i <= |w|
  {
    if rows == [] then whole == Success(w[0..i])
    else
      && i < high <= |w| && multiset(rows) == multiset(w[i..high])
      && if |rows| < limit || 1000 * w[high - 1].ms >= end then whole == Success(w[0..high])
         else if pages == 1 then whole == Failure(PageGuard)
         else PoisedById(history, a, w, high, w[high - 1].id + 1, end, limit, pages - 1, whole)
  }

  /** One page by id. */
  lemma TradePage(history: seq<Row>, a: nat, w: seq<Row>, i: nat, cursor: nat, end: nat, limit: nat, pages: nat,
                  whole: Result<seq<Row>, PageError>, rows: seq<Row>)
    requires limit > 0 && pages > 0 && RisingIds(history) && PoisedById(history, a, w, i, cursor, end, limit, pages, whole)
    requires multiset(rows) == multiset(FromId(history, cursor, limit))
    ensures var high := Least(i + limit, |w|);
            PageLeft(history, a, w, i, high, end, limit, pages, whole, rows) && (rows != [] ==> cursor <= w[high - 1].id)
  {
    hide Walk;
    hide IdIndex;
    hide Walked;
    hide FromId;
    hide RisingIds;
    var high := Least(i + limit, |w|);
    NextById(history, a, i, cursor, limit);
    SameLength(rows, w[i..high]);
    if rows == [] {
      assert w[0..i] == w[0..];
      WalkDone(w, limit, 0, pages, AtEnd(end), whole);
    } else {
      WalkPage(w, limit, 0, i, pages, AtEnd(end), whole);
      AfterRow(history, a, high);
    }
  }

  /** The first page, by time, when the window holds `n` rows. */
  lemma FirstPage(history: seq<Row>, a: nat, w: seq<Row>, n: nat, end: nat, limit: nat, pages: nat, rows: seq<Row>)
    requires limit > 0 && pages > 0 && RisingIds(history) && a <= |history| && w == history[a..] && n <= |w|
    requires multiset(rows) == multiset(w[0..Least(limit, n)])
    ensures PageLeft(history, a, w, 0, Least(limit, n), end, limit, pages, AggFetched(w, n, limit, pages, end), rows)
  {
    hide IdIndex;
    hide RisingIds;
    hide Walked;
    hide Walk;
    SameLength(rows, w[0..Least(limit, n)]);
    if n < limit {
      assert w[..n] == w[0..n];
    } else {
      NothingWalked(w, limit, 0, pages, AtEnd(end), 0, 0, Id);
      WalkPage(w, limit, 0, 0, pages, AtEnd(end), AggFetched(w, n, limit, pages, end));
      AfterRow(history, a, limit);
    }
  }

  /** The state of the trade loop before a request: by time at first, then by id. */
  ghost predicate Going(history: seq<Row>, a: nat, w: seq<Row>, n: nat, i: nat, cursor: Option<nat>, end: nat, limit: nat, pages: nat,
                        whole: Result<seq<Row>, PageError>)
    requires limit > 0 && pages > 0
  {
    && a <= |history| && w == history[a..] && n <= |w| && i <= |w|
    && if cursor.None? then i == 0 && whole == AggFetched(w, n, limit, pages, end)
       else PoisedById(history, a, w, i, cursor.value, end, limit, pages, whole)
  }

  function PageEnd(w: seq<Row>, n: nat, i: nat, cursor: Option<nat>, limit: nat): nat {
    if cursor.None? then Least(limit, n) else Least(i + limit, |w|)
  }

  lemma NextPage(history: seq<Row>, a: nat, w: seq<Row>, n: nat, i: nat, cursor: Option<nat>, end: nat, limit: nat, pages: nat,
                 whole: Result<seq<Row>, PageError>, rows: seq<Row>)
    requires limit > 0 && pages > 0 && RisingIds(history) && Going(history, a, w, n, i, cursor, end, limit, pages, whole)
    requires multiset(rows) == multiset(if cursor.None? then w[0..Least(limit, n)] else FromId(history, cursor.value, limit))
    ensures var high := PageEnd(w, n, i, cursor, limit);
            && (if rows == [] then whole == Success(w[0..i])
                else
                  && i < high <= |w| && multiset(rows) == multiset(w[i..high])
                  && if |rows| < limit || 1000 * w[high - 1].ms >= end then whole == Success(w[0..high])
                     else if pages == 1 then whole == Failure(PageGuard)
                     else Going(history, a, w, n, high, Some(w[high - 1].id + 1), end, limit, pages - 1, whole))
            && (rows != [] && cursor.Some? ==> cursor.value <= w[high - 1].id)
  {
    hide PoisedById;
    hide AggFetched;
    hide FromId;
    hide RisingIds;
    if cursor.None? {
      FirstPage(history, a, w, n, end, limit, pages, rows);
    } else {
      TradePage(history, a, w, i, cursor.value, end, limit, pages, whole, rows);
    }
  }

  lemma FirstRows(history: seq<Row>, start: nat, end: nat, limit: nat)
    requires Chronological(history) && start < end
    ensures var a, w, n := Older(history, CeilingMs(start)), FromWindow(history, start), Within(history, start, end);
            && w == history[a..] && n <= |w|
            && OldestWithin(history, CeilingMs(start), FloorBefore(end), limit) == w[0..Least(limit, n)]
            && w[..n] == Wanted(history, start, end)
  {
    hide Older;
    hide Chronological;
    hide Wanted;
    var a, w, n := Older(history, CeilingMs(start)), FromWindow(history, start), Within(history, start, end);
    WindowSpan(history, start, end);
    var high := Least(limit, n);
    assert history[a..|history|] == w;
    SliceOfSlice(history, a, |history|, 0, high);
    SliceOfSlice(history, a, |history|, 0, n);
    assert w[..n] == w[0..n];
  }

  lemma RisingSuffix(history: seq<Row>, a: nat)
    requires RisingIds(history) && Chronological(history) && a <= |history|
    ensures RisingKeys(Id, history[a..]) && Chronological(history[a..])
  {
  }

  /** `fetch_trades` of binance_public.py. */
  method FetchAggTrades(serveWindow: WindowServer, serveIds: IdServer, ghost history: seq<Row>, tie: Row -> nat,
                        start: nat, end: nat, limit: nat, pages: nat)
    returns (r: Result<seq<Row>, PageError>)
    requires limit > 0 && pages > 0 && start < end
    requires ServesWindow(serveWindow, history, limit) && ServesIds(serveIds, history, limit)
    requires RisingIds(history) && Chronological(history) && KeysApart(tie, history)
    ensures Within(history, start, end) <= |FromWindow(history, start)|
    ensures match AggFetched(FromWindow(history, start), Within(history, start, end), limit, pages, end)
            case Failure(e) => r == Failure(e)
            case Success(rows) => r == Success(Sort(Filter(rows, InWindow(start, end)), ByTime(tie)))
  {
    hide Filter;
    hide Sort;
    hide Older;
    hide KeysApart;
    hide Standing;
    hide Going;
    hide OldestWithin;
    hide FromId;
    hide Chronological;
    hide RisingIds;
    hide RisingKeys;
    hide AggFetched;
    hide Within;
    hide FromWindow;
    ghost var a, w, n := Older(history, CeilingMs(start)), FromWindow(history, start), Within(history, start, end);
    ghost var whole := TradesStart(history, start, end, limit, pages);
    var cursor: Option<nat> := None;
    var cursors: set<nat> := {};
    var seen: set<nat> := {};
    var kept: seq<Row> := [];
    ghost var got: seq<Row>, i: nat := [], 0;
    StandingStart(w, Id, start, end);
    var page, done := 1, false;
    while !done
      invariant 1 <= page <= pages && i <= |w| && Standing(w, Id, start, end, seen, kept, got, i)
      invariant !done ==> Going(history, a, w, n, i, cursor, end, limit, pages - page + 1, whole)
      invariant !done ==> if cursor.None? then cursors == {} else forall c :: c in cursors ==> c <= cursor.value
      invariant done ==> whole == Success(w[0..i])
      decreases if done then 0 else 1, pages - page
    {
      var rows := if cursor.None? then serveWindow(CeilingMs(start), FloorBefore(end)) else serveIds(cursor.value);
      NextPage(history, a, w, n, i, cursor, end, limit, pages - page + 1, whole, rows);
      if rows == [] {
        done := true;
      } else {
        ghost var high := PageEnd(w, n, i, cursor, limit);
        var ok, top, latest;
        ok, seen, kept, top, latest, got := TakeStretch(w, Id, i, high, rows, start, end, seen, kept, got);
        if !ok {
          return Failure(DuplicateRow);
        }
        i := high;
        var next := top + 1;
        if |rows| < limit || 1000 * latest >= end {
          done := true;
        } else if (cursor.Some? && next <= cursor.value) || next in cursors {
          return Failure(CursorStuck);
        } else if page == pages {
          return Failure(PageGuard);
        } else {
          cursors, page := cursors + {next}, page + 1;
        }
        cursor := Some(next);
      }
    }
    StandingSorted(history, tie, w, Id, start, end, seen, kept, got, i);
    r := Success(Sort(kept, ByTime(tie)));
  }

  lemma TradesStart(history: seq<Row>, start: nat, end: nat, limit: nat, pages: nat) returns (whole: Result<seq<Row>, PageError>)
    requires limit > 0 && pages > 0 && start < end && RisingIds(history) && Chronological(history)
    ensures var a, w, n := Older(history, CeilingMs(start)), FromWindow(history, start), Within(history, start, end);
            && n <= |w| && whole == AggFetched(w, n, limit, pages, end)
            && Going(history, a, w, n, 0, None, end, limit, pages, whole)
            && OldestWithin(history, CeilingMs(start), FloorBefore(end), limit) == w[0..Least(limit, n)]
            && RisingKeys(Id, w) && Chronological(w) && forall x :: x in w ==> x in history
  {
    hide Older;
    hide OldestWithin;
    hide Chronological;
    hide RisingIds;
    hide RisingKeys;
    hide AggFetched;
    hide Wanted;
    var a, w, n := Older(history, CeilingMs(start)), FromWindow(history, start), Within(history, start, end);
    FirstRows(history, start, end, limit);
    RisingSuffix(history, a);
    PartOf(history, a, |history|);
    assert history[a..|history|] == w;
    whole := AggFetched(w, n, limit, pages, end);
  }

  /** Trades whose time never falls as ids rise: every trade of the window is fetched exactly once, or the page guard
      stops the loop, which happens exactly when `pages` full pages from the window's start do not reach its end. */
  lemma AggTradesFetchAll(history: seq<Row>, start: nat, end: nat, limit: nat, pages: nat)
    requires RisingIds(history) && Chronological(history) && start < end && limit > 0 && pages > 0
    ensures Within(history, start, end) <= |FromWindow(history, start)|
    ensures var w := FromWindow(history, start); var f := AggFetched(w, Within(history, start, end), limit, pages, end);
            && (f.Failure? <==> TooFar(w, 0, pages * limit, AtEnd(end))) && (f.Failure? ==> f.error == PageGuard)
            && (f.Success? ==> Filter(f.value, InWindow(start, end)) == Wanted(history, start, end))
  {
    var a, w, n := Older(history, CeilingMs(start)), FromWindow(history, start), Within(history, start, end);
    FirstRows(history, start, end, limit);
    RisingSuffix(history, a);
    WindowSplit(history, start, end);
    AllWithin(history, start, end);
    CapacityIsProduct(pages, limit);
    OneMorePage(pages, limit, pages * limit);
    EndIsLasting(w, end);
    var high := WalkLaw(w, limit, 0, pages, AtEnd(end));
    hide Older;
    hide FromWindow;
    hide Within;
    hide Wanted;
    hide Filter;
    hide RisingIds;
    hide Chronological;
    hide Walk;
    hide Capacity;
    if n >= limit && Walk(w, limit, 0, pages, AtEnd(end)).Success? {
      TailOutside(w, n, high, start, end);
    }
  }

  lemma EndIsLasting(w: seq<Row>, end: nat)
    requires Chronological(w)
    ensures Lasting(w, AtEnd(end))
  {
  }

  /** The first rows from the window's start are inside it, the others after it. */
  lemma WindowSplit(history: seq<Row>, start: nat, end: nat)
    requires Chronological(history) && start < end
    ensures var w, n := FromWindow(history, start), Within(history, start, end);
            n <= |w| && forall i :: 0 <= i < |w| ==> (i < n <==> 1000 * w[i].ms < end)
  {
    var a := Older(history, CeilingMs(start));
    OlderLaw(history, FloorBefore(end) + 1);
    WindowSpan(history, start, end);
    hide Older;
    hide Chronological;
    hide Wanted;
    var w, n := FromWindow(history, start), Within(history, start, end);
    forall i | 0 <= i < |w|
      ensures i < n <==> 1000 * w[i].ms < end
    {
      assert w[i] == history[a + i];
    }
  }

  /** Rows read past the window's end are dropped again. */
  lemma TailOutside(w: seq<Row>, n: nat, high: nat, start: nat, end: nat)
    requires n <= |w| && high <= |w| && forall i :: 0 <= i < |w| ==> (i < n <==> 1000 * w[i].ms < end)
    requires high == |w| || (high > 0 && AtEnd(end)(w[high - 1]))
    ensures n <= high && Filter(w[0..high], InWindow(start, end)) == Filter(w[..n], InWindow(start, end))
  {
    var rest := w[n..high];
    assert w[0..high] == w[..n] + rest;
    FilterAppend(w[..n], rest, InWindow(start, end));
    forall x | x in rest
      ensures !InWindow(start, end)(x)
    {
      var i :| 0 <= i < |rest| && rest[i] == x;
      assert w[n + i] == x;
    }
    FilterNone(rest, InWindow(start, end));
  }
}
