/** Backward cursor pagination: OKX candles (okx_public.py), OKX funding and OKX trades (okx_v5_public.py) walk
    from the end of the window to its start, each page asking for what is older than the cursor. */
module BackwardPages {
  import opened Results
  import opened Sorting

  /** A provider record; times are provider milliseconds. */
  datatype Row = Row(id: nat, ms: nat)

  datatype PageError = DuplicateRow | CursorStuck | PageGuard

  /** `start <= observed < end`, in microseconds. */
  function InWindow(start: int, end: int): Row -> bool {
    (r: Row) => start <= 1000 * r.ms < end
  }

  predicate Chronological(history: seq<Row>) {
    forall i, j :: 0 <= i < j < |history| ==> history[i].ms <= history[j].ms
  }

  predicate DistinctTimes(history: seq<Row>) {
    forall i, j :: 0 <= i < j < |history| ==> history[i].ms < history[j].ms
  }

  predicate DistinctIds(history: seq<Row>) {
    forall i, j :: 0 <= i < j < |history| ==> history[i].id != history[j].id
  }

  // ---------------------------------------------------------------- the server

  /** How many rows of the history are older than the cursor. */
  function Older(history: seq<Row>, cursor: nat): (k: nat)
    ensures k <= |history|
  {
    if history == [] || history[0].ms >= cursor then 0 else 1 + Older(history[1..], cursor)
  }

  function Start(k: nat, limit: nat): nat {
    if k < limit then 0 else k - limit
  }

  function NewestBefore(history: seq<Row>, cursor: nat, limit: nat): seq<Row> {
    var k := Older(history, cursor);
    history[Start(k, limit)..k]
  }

  type Server = nat -> seq<Row>

  /** A page holds the newest `limit` rows older than the cursor, in any order. */
  ghost predicate ServesBackward(serve: Server, history: seq<Row>, limit: nat) {
    forall cursor: nat :: multiset(serve(cursor)) == multiset(NewestBefore(history, cursor, limit))
  }

  lemma {:induction false} OlderLaw(history: seq<Row>, cursor: nat)
    requires Chronological(history)
    ensures forall i :: 0 <= i < |history| ==> (i < Older(history, cursor) <==> history[i].ms < cursor)
    decreases |history|
  {
    if history != [] && history[0].ms < cursor {
      var rest := history[1..];
      OlderLaw(rest, cursor);
      assert forall i :: 0 < i < |history| ==> history[i] == rest[i - 1];
    }
  }

  // ---------------------------------------------------------------- what a loop fetches

  /** The rows of all pages, oldest first, when `k` rows are older than the cursor and `pages` requests remain. */
  function Fetched(history: seq<Row>, start: int, limit: nat, k: nat, pages: nat): Result<seq<Row>, PageError>
    requires k <= |history| && limit > 0 && pages > 0
    decreases pages
  {
    var low := Start(k, limit);
    if k == 0 then Success([])
    else if 1000 * history[low].ms <= start || k - low < limit then Success(history[low..k])
    else if pages == 1 then Failure(PageGuard)
    else
      var rest :- Fetched(history, start, limit, Older(history, history[low].ms), pages - 1);
      Success(rest + history[low..k])
  }

  /** How one adapter's loop differs from another's. */
  datatype Adapter = Adapter(key: Row -> nat, duplicateFirst: bool, stuckFirst: bool)

  const CANDLES := Adapter((r: Row) => r.ms, false, true)
  const FUNDING := Adapter((r: Row) => r.ms, true, false)
  const TRADES := Adapter((r: Row) => r.id, true, false)

  predicate KeysApart(key: Row -> nat, rows: seq<Row>) {
    forall i, j :: 0 <= i < j < |rows| ==> key(rows[i]) != key(rows[j])
  }

  /** The final order: by time, then by observation identity. */
  function ByTime(tie: Row -> nat): (Row, Row) -> bool {
    (x: Row, y: Row) => x.ms < y.ms || (x.ms == y.ms && tie(x) <= tie(y))
  }

  function CeilingMs(us: nat): nat {
    (us + 999) / 1000
  }

  ghost predicate Keyed(seen: set<nat>, kept: seq<Row>, key: Row -> nat) {
    forall k :: k in seen <==> exists i :: 0 <= i < |kept| && key(kept[i]) == k
  }

  lemma KeyedGrows(seen: set<nat>, kept: seq<Row>, key: Row -> nat, row: Row)
    requires Keyed(seen, kept, key)
    ensures Keyed(seen + {key(row)}, kept + [row], key)
  {
    var all := kept + [row];
    assert all[|kept|] == row;
    forall k | k in seen
      ensures exists i :: 0 <= i < |all| && key(all[i]) == k
    {
      var i :| 0 <= i < |kept| && key(kept[i]) == k;
      assert all[i] == kept[i];
    }
    forall i | 0 <= i < |all|
      ensures key(all[i]) in seen + {key(row)}
    {
      if i < |kept| {
        assert all[i] == kept[i];
      }
    }
  }

  lemma OneRowMore(rows: seq<Row>, i: nat, keep: Row -> bool)
    requires i < |rows|
    ensures Filter(rows[..i + 1], keep) == Filter(rows[..i], keep) + (if keep(rows[i]) then [rows[i]] else [])
  {
    assert rows[..i + 1] == rows[..i] + [rows[i]];
    FilterAppend(rows[..i], [rows[i]], keep);
  }

  /** The loop over one page: its oldest time, and the rows kept; `ok` is false at a duplicate. */
  method TakePage(rows: seq<Row>, adapter: Adapter, start: int, end: int, seen: set<nat>, kept: seq<Row>)
    returns (ok: bool, seen': set<nat>, kept': seq<Row>, oldest: nat)
    requires rows != [] && KeysApart(adapter.key, rows) && Keyed(seen, kept, adapter.key)
    requires forall i :: 0 <= i < |rows| ==> adapter.key(rows[i]) !in seen
    ensures ok && kept' == kept + Filter(rows, InWindow(start, end)) && Keyed(seen', kept', adapter.key)
    ensures (exists i :: 0 <= i < |rows| && rows[i].ms == oldest) && forall i :: 0 <= i < |rows| ==> oldest <= rows[i].ms
  {
    hide Keyed;
    ok, seen', kept', oldest := true, seen, kept, rows[0].ms;
    var within := InWindow(start, end);
    for i := 0 to |rows|
      invariant ok && kept' == kept + Filter(rows[..i], within) && Keyed(seen', kept', adapter.key)
      invariant forall j :: i <= j < |rows| ==> adapter.key(rows[j]) !in seen'
      invariant (exists j :: 0 <= j < |rows| && rows[j].ms == oldest) && forall j :: 0 <= j < i ==> oldest <= rows[j].ms
    {
      OneRowMore(rows, i, within);
      oldest := if rows[i].ms < oldest then rows[i].ms else oldest;
      if adapter.duplicateFirst && adapter.key(rows[i]) in seen' {
        return false, seen', kept', oldest;
      }
      if within(rows[i]) {
        if adapter.key(rows[i]) in seen' {
          return false, seen', kept', oldest;
        }
        KeyedGrows(seen', kept', adapter.key, rows[i]);
        seen', kept' := seen' + {adapter.key(rows[i])}, kept' + [rows[i]];
      }
    }
    assert rows[..|rows|] == rows;
  }

  /** What the loop has gathered by the time the cursor has `k` older rows before it. */
  ghost predicate Gathered(history: seq<Row>, start: int, end: int, kept: seq<Row>, got: seq<Row>, cursor: nat) {
    && multiset(kept) == multiset(Filter(got, InWindow(start, end)))
    && forall i :: 0 <= i < |got| ==> got[i] in history && got[i].ms >= cursor
  }

  /** A page of rows older than the cursor repeats no key already seen. */
  lemma PageIsNew(history: seq<Row>, adapter: Adapter, start: int, end: int, kept: seq<Row>, got: seq<Row>, cursor: nat,
                  seen: set<nat>, low: nat, k: nat, rows: seq<Row>)
    requires Chronological(history) && KeysApart(adapter.key, history)
    requires Gathered(history, start, end, kept, got, cursor) && Keyed(seen, kept, adapter.key)
    requires low <= k == Older(history, cursor) && multiset(rows) == multiset(history[low..k])
    ensures KeysApart(adapter.key, rows) && forall i :: 0 <= i < |rows| ==> adapter.key(rows[i]) !in seen
    ensures forall i :: 0 <= i < |rows| ==> rows[i] in history && rows[i].ms < cursor
  {
    OlderLaw(history, cursor);
    var page := history[low..k];
    forall i | 0 <= i < |rows|
      ensures rows[i] in history && rows[i].ms < cursor && adapter.key(rows[i]) !in seen
    {
      InMultiset(rows, page, rows[i]);
      var j :| 0 <= j < |page| && page[j] == rows[i];
      assert history[low + j] == rows[i];
      if adapter.key(rows[i]) in seen {
        SeenIsKept(history, adapter, start, end, kept, got, cursor, seen, rows[i]);
      }
    }
    PageKeysApart(adapter.key, page, rows);
  }

  lemma SeenIsKept(history: seq<Row>, adapter: Adapter, start: int, end: int, kept: seq<Row>, got: seq<Row>, cursor: nat,
                   seen: set<nat>, row: Row)
    requires KeysApart(adapter.key, history) && Gathered(history, start, end, kept, got, cursor) && Keyed(seen, kept, adapter.key)
    requires row in history && row.ms < cursor
    ensures adapter.key(row) !in seen
  {
    if adapter.key(row) in seen {
      var i :| 0 <= i < |kept| && adapter.key(kept[i]) == adapter.key(row);
      InMultiset(kept, Filter(got, InWindow(start, end)), kept[i]);
      FilterMember(got, InWindow(start, end), kept[i]);
      var j :| 0 <= j < |got| && got[j] == kept[i];
      SameRow(adapter.key, history, kept[i], row);
    }
  }

  lemma SameRow(key: Row -> nat, history: seq<Row>, x: Row, y: Row)
    requires KeysApart(key, history) && x in history && y in history && key(x) == key(y)
    ensures x == y
  {
    var i :| 0 <= i < |history| && history[i] == x;
    var j :| 0 <= j < |history| && history[j] == y;
  }

  lemma PageKeysApart(key: Row -> nat, page: seq<Row>, rows: seq<Row>)
    requires KeysApart(key, page) && multiset(rows) == multiset(page)
    ensures KeysApart(key, rows)
  {
    MapElements(page, rows, key);
    assert Distinct(Map(page, key)) by {
      forall i, j | 0 <= i < j < |page|
        ensures Map(page, key)[i] != Map(page, key)[j]
      {
      }
    }
    DistinctElements(Map(page, key), Map(rows, key));
    forall i, j | 0 <= i < j < |rows|
      ensures key(rows[i]) != key(rows[j])
    {
      assert Map(rows, key)[i] != Map(rows, key)[j];
    }
  }

  lemma OldestIsFirst(page: seq<Row>, rows: seq<Row>, oldest: nat)
    requires Chronological(page) && page != [] && multiset(rows) == multiset(page)
    requires (exists i :: 0 <= i < |rows| && rows[i].ms == oldest) && forall i :: 0 <= i < |rows| ==> oldest <= rows[i].ms
    ensures |rows| == |page| && oldest == page[0].ms
  {
    assert |rows| == |multiset(rows)| == |multiset(page)| == |page|;
    InMultiset(rows, page, page[0]);
    var j :| 0 <= j < |rows| && rows[j] == page[0];
    var i :| 0 <= i < |rows| && rows[i].ms == oldest;
    InMultiset(rows, page, rows[i]);
    var l :| 0 <= l < |page| && page[l] == rows[i];
  }

  lemma PageIsChronological(history: seq<Row>, low: nat, k: nat)
    requires Chronological(history) && low <= k <= |history|
    ensures Chronological(history[low..k])
  {
  }

  lemma PageFacts(history: seq<Row>, cursor: nat, limit: nat, rows: seq<Row>, oldest: nat)
    requires Chronological(history) && limit > 0 && rows != [] && multiset(rows) == multiset(NewestBefore(history, cursor, limit))
    requires (exists i :: 0 <= i < |rows| && rows[i].ms == oldest) && forall i :: 0 <= i < |rows| ==> oldest <= rows[i].ms
    ensures var k := Older(history, cursor); var low := Start(k, limit);
            k > 0 && |rows| == k - low && oldest == history[low].ms < cursor
  {
    var k := Older(history, cursor);
    var low := Start(k, limit);
    NoRows(history, cursor, limit, rows);
    OlderLaw(history, cursor);
    PageIsChronological(history, low, k);
    hide Chronological;
    hide Older;
    OldestIsFirst(history[low..k], rows, oldest);
  }

  lemma NoRows(history: seq<Row>, cursor: nat, limit: nat, rows: seq<Row>)
    requires limit > 0 && multiset(rows) == multiset(NewestBefore(history, cursor, limit))
    ensures rows == [] <==> Older(history, cursor) == 0
  {
    assert |rows| == |multiset(rows)| == |multiset(NewestBefore(history, cursor, limit))| == |NewestBefore(history, cursor, limit)|;
  }

  /** The rows of the whole run are the rows still to come, then those already gathered. */
  ghost predicate Joined(whole: Result<seq<Row>, PageError>, rest: Result<seq<Row>, PageError>, got: seq<Row>) {
    match rest
    case Failure(e) => whole == Failure(e)
    case Success(rows) => whole == Success(rows + got)
  }

  lemma GatherPage(history: seq<Row>, start: int, end: int, kept: seq<Row>, got: seq<Row>, cursor: nat, low: nat, k: nat, rows: seq<Row>)
    requires Chronological(history) && Gathered(history, start, end, kept, got, cursor)
    requires low < k == Older(history, cursor) && multiset(rows) == multiset(history[low..k])
    ensures Gathered(history, start, end, kept + Filter(rows, InWindow(start, end)), history[low..k] + got, history[low].ms)
  {
    var within, page := InWindow(start, end), history[low..k];
    OlderLaw(history, cursor);
    FilterElements(rows, page, within);
    FilterAppend(page, got, within);
    hide Filter;
    hide Older;
    PageThenGot(history, low, k, got, cursor);
  }

  lemma PageThenGot(history: seq<Row>, low: nat, k: nat, got: seq<Row>, cursor: nat)
    requires Chronological(history) && low < k <= |history| && history[low].ms < cursor
    requires forall i :: 0 <= i < |got| ==> got[i] in history && got[i].ms >= cursor
    ensures var all := history[low..k] + got; forall i :: 0 <= i < |all| ==> all[i] in history && all[i].ms >= history[low].ms
  {
    var all := history[low..k] + got;
    forall i | 0 <= i < |all|
      ensures all[i] in history && all[i].ms >= history[low].ms
    {
      if i < k - low {
        assert all[i] == history[low + i];
      } else {
        assert all[i] == got[i - (k - low)];
      }
    }
  }

  /** A page after which the loop stops. */
  predicate Stops(history: seq<Row>, start: int, limit: nat, k: nat)
    requires 0 < k <= |history| && limit > 0
  {
    1000 * history[Start(k, limit)].ms <= start || k - Start(k, limit) < limit
  }

  lemma FetchedStep(history: seq<Row>, start: int, limit: nat, k: nat, pages: nat)
    requires 0 < k <= |history| && limit > 0 && pages > 0
    ensures Start(k, limit) < k
    ensures var low, f := Start(k, limit), Fetched(history, start, limit, k, pages);
            if Stops(history, start, limit, k) then f == Success(history[low..k])
            else if pages == 1 then f == Failure(PageGuard)
            else
              var rest := Fetched(history, start, limit, Older(history, history[low].ms), pages - 1);
              f == if rest.Success? then Success(rest.value + history[low..k]) else Failure(rest.error)
  {
    hide Older;
  }

  lemma JoinMore(whole: Result<seq<Row>, PageError>, rest: Result<seq<Row>, PageError>, page: seq<Row>, got: seq<Row>)
    requires Joined(whole, if rest.Success? then Success(rest.value + page) else Failure(rest.error), got)
    ensures Joined(whole, rest, page + got)
  {
    if rest.Success? {
      assert rest.value + page + got == rest.value + (page + got);
    }
  }

  lemma JoinPage(history: seq<Row>, start: int, limit: nat, k: nat, pages: nat, whole: Result<seq<Row>, PageError>, got: seq<Row>)
    requires 0 < k <= |history| && limit > 0 && pages > 0 && Joined(whole, Fetched(history, start, limit, k, pages), got)
    ensures Start(k, limit) < k
    ensures var low := Start(k, limit);
            if Stops(history, start, limit, k) then whole == Success(history[low..k] + got)
            else if pages == 1 then whole == Failure(PageGuard)
            else Joined(whole, Fetched(history, start, limit, Older(history, history[low].ms), pages - 1), history[low..k] + got)
  {
    hide Older;
    hide Stops;
    FetchedStep(history, start, limit, k, pages);
    var low := Start(k, limit);
    if !Stops(history, start, limit, k) && pages > 1 {
      var rest := Fetched(history, start, limit, Older(history, history[low].ms), pages - 1);
      hide Fetched;
      JoinMore(whole, rest, history[low..k], got);
    }
  }

  lemma {:induction false} FetchedFromHistory(history: seq<Row>, start: int, limit: nat, k: nat, pages: nat)
    requires k <= |history| && limit > 0 && pages > 0
    ensures var f := Fetched(history, start, limit, k, pages);
            f.Success? ==> forall x :: x in f.value ==> x in history
    decreases pages
  {
    hide Older;
    if k > 0 {
      hide Stops;
      FetchedStep(history, start, limit, k, pages);
      var low := Start(k, limit);
      if !Stops(history, start, limit, k) && pages > 1 {
        FetchedFromHistory(history, start, limit, Older(history, history[low].ms), pages - 1);
      }
      hide Fetched;
    }
  }

  lemma SortedAlike(history: seq<Row>, tie: Row -> nat, kept: seq<Row>, rows: seq<Row>)
    requires KeysApart(tie, history) && multiset(kept) == multiset(rows)
    requires forall x :: x in rows ==> x in history
    ensures Sort(kept, ByTime(tie)) == Sort(rows, ByTime(tie))
  {
    forall x, y | x in rows && y in rows && ByTime(tie)(x, y) && ByTime(tie)(y, x)
      ensures x == y
    {
      SameRow(tie, history, x, y);
    }
    SortUnique(rows, kept, ByTime(tie));
  }

  /** The adapters' loop, from the end of the window towards its start. */
  method FetchBackward(serve: Server, ghost history: seq<Row>, adapter: Adapter, tie: Row -> nat, start: nat, end: nat, limit: nat, pages: nat)
    returns (r: Result<seq<Row>, PageError>)
    requires limit > 0 && pages > 0 && ServesBackward(serve, history, limit)
    requires Chronological(history) && KeysApart(adapter.key, history) && KeysApart(tie, history)
    ensures match Fetched(history, start, limit, Older(history, CeilingMs(end)), pages)
            case Failure(e) => r == Failure(e)
            case Success(rows) => r == Success(Sort(Filter(rows, InWindow(start, end)), ByTime(tie)))
  {
    hide Fetched;
    hide Keyed;
    hide Gathered;
    hide Joined;
    hide Chronological;
    hide KeysApart;
    hide Older;
    hide Filter;
    hide Sort;
    var cursor: nat := CeilingMs(end);
    var cursors: set<nat> := {cursor};
    var seen: set<nat> := {};
    var kept: seq<Row> := [];
    ghost var got: seq<Row>, k := [], Older(history, cursor);
    ghost var whole := Fetched(history, start, limit, k, pages);
    NothingGathered(history, start, end, adapter.key, cursor, whole);
    var page, done := 1, false;
    while !done
      invariant 1 <= page <= pages && k <= |history|
      invariant Keyed(seen, kept, adapter.key) && Gathered(history, start, end, kept, got, cursor)
      invariant !done ==> k == Older(history, cursor) && (forall c :: c in cursors ==> cursor <= c)
                          && Joined(whole, Fetched(history, start, limit, k, pages - page + 1), got)
      invariant done ==> whole == Success(got)
      decreases if done then 0 else 1, pages - page
    {
      var rows := serve(cursor);
      NoRows(history, cursor, limit, rows);
      if rows == [] {
        LastPage(history, start, limit, pages - page + 1, whole, got);
        done := true;
      } else {
        ghost var low := Start(k, limit);
        PageIsNew(history, adapter, start, end, kept, got, cursor, seen, low, k, rows);
        GatherPage(history, start, end, kept, got, cursor, low, k, rows);
        JoinPage(history, start, limit, k, pages - page + 1, whole, got);
        var ok, oldest;
        ok, seen, kept, oldest := TakePage(rows, adapter, start, end, seen, kept);
        if !ok {
          return Failure(DuplicateRow);
        }
        PageFacts(history, cursor, limit, rows, oldest);
        got := history[low..k] + got;
        var stuck := oldest >= cursor || oldest in cursors;
        if stuck && adapter.stuckFirst {
          return Failure(CursorStuck);
        }
        if 1000 * oldest <= start || |rows| < limit {
          done := true;
        } else if stuck {
          return Failure(CursorStuck);
        } else if page == pages {
          return Failure(PageGuard);
        } else {
          cursors, page := cursors + {oldest}, page + 1;
        }
        cursor, k := oldest, Older(history, oldest);
      }
    }
    FetchedFromHistory(history, start, limit, Older(history, CeilingMs(end)), pages);
    KeptInHistory(history, start, end, kept, got, cursor);
    SortedAlike(history, tie, kept, Filter(got, InWindow(start, end)));
    r := Success(Sort(kept, ByTime(tie)));
  }

  lemma NothingGathered(history: seq<Row>, start: int, end: int, key: Row -> nat, cursor: nat, whole: Result<seq<Row>, PageError>)
    ensures Keyed({}, [], key) && Gathered(history, start, end, [], [], cursor) && Joined(whole, whole, [])
  {
    if whole.Success? {
      assert whole.value + [] == whole.value;
    }
  }

  lemma LastPage(history: seq<Row>, start: int, limit: nat, pages: nat, whole: Result<seq<Row>, PageError>, got: seq<Row>)
    requires limit > 0 && pages > 0 && Joined(whole, Fetched(history, start, limit, 0, pages), got)
    ensures whole == Success(got)
  {
    assert [] + got == got;
  }

  lemma KeptInHistory(history: seq<Row>, start: int, end: int, kept: seq<Row>, got: seq<Row>, cursor: nat)
    requires Gathered(history, start, end, kept, got, cursor)
    ensures multiset(kept) == multiset(Filter(got, InWindow(start, end)))
    ensures forall x :: x in Filter(got, InWindow(start, end)) ==> x in history
  {
    forall x | x in Filter(got, InWindow(start, end))
      ensures x in history
    {
      FilterMember(got, InWindow(start, end), x);
      var i :| 0 <= i < |got| && got[i] == x;
    }
  }

  // ---------------------------------------------------------------- what the loop amounts to

  /** The page guard's case: after `size = pages * limit` rows the start of the window is still not reached. */
  predicate TooMany(history: seq<Row>, start: int, k: nat, size: nat)
    requires k <= |history|
  {
    0 < size <= k && 1000 * history[k - size].ms > start
  }

  /** No page boundary at or after the start falls between two rows of one millisecond. */
  predicate NoSplit(history: seq<Row>, start: int, limit: nat, k: nat, pages: nat)
    requires k <= |history| && limit > 0 && pages > 0
    decreases pages
  {
    var low := Start(k, limit);
    if k == 0 || 1000 * history[low].ms < start || k - low < limit then true
    else if 1000 * history[low].ms == start then Older(history, history[low].ms) == low
    else pages == 1 || (Older(history, history[low].ms) == low && NoSplit(history, start, limit, low, pages - 1))
  }

  lemma OlderThanItself(history: seq<Row>, low: nat)
    requires DistinctTimes(history) && low < |history|
    ensures Older(history, history[low].ms) == low
  {
    OlderLaw(history, history[low].ms);
    assert low > 0 ==> history[low - 1].ms < history[low].ms;
  }

  lemma {:induction false} DistinctNeverSplit(history: seq<Row>, start: int, limit: nat, k: nat, pages: nat)
    requires DistinctTimes(history) && k <= |history| && limit > 0 && pages > 0
    ensures NoSplit(history, start, limit, k, pages)
    decreases pages
  {
    var low := Start(k, limit);
    if k > 0 {
      OlderThanItself(history, low);
      if pages > 1 {
        DistinctNeverSplit(history, start, limit, low, pages - 1);
      }
    }
  }

  /** Without splits the pages are one stretch of history that reaches the start, or the guard stops it. */
  lemma {:induction false} Stretch(history: seq<Row>, start: int, limit: nat, k: nat, pages: nat, size: nat) returns (low: nat)
    requires Chronological(history) && k <= |history| && limit > 0 && pages > 0 && size == pages * limit
    requires NoSplit(history, start, limit, k, pages)
    ensures low < k || low == k == 0
    ensures var f := Fetched(history, start, limit, k, pages);
            && (f.Failure? <==> TooMany(history, start, k, size)) && (f.Failure? ==> f.error == PageGuard)
            && (f.Success? ==> f.value == history[low..k])
            && (f.Success? && low > 0 ==> 1000 * history[low - 1].ms < start)
    decreases pages
  {
    hide Older;
    hide Chronological;
    low := Start(k, limit);
    OneMorePage(pages, limit, size);
    if k > 0 && k - low >= limit {
      if 1000 * history[low].ms <= start {
        NotTooMany(history, start, k, size, low);
        if low > 0 {
          BeforeStop(history, start, low);
        }
      } else if pages > 1 {
        var first := low;
        low := Stretch(history, start, limit, first, pages - 1, size - limit);
        assert history[low..first] + history[first..k] == history[low..k];
      }
    }
  }

  lemma BeforeStop(history: seq<Row>, start: int, low: nat)
    requires Chronological(history) && 0 < low < |history|
    requires 1000 * history[low].ms < start || (1000 * history[low].ms == start && Older(history, history[low].ms) == low)
    ensures 1000 * history[low - 1].ms < start
  {
    OlderLaw(history, history[low].ms);
  }

  lemma OneMorePage(pages: nat, limit: nat, size: nat)
    requires pages > 0 && limit > 0 && size == pages * limit
    ensures size >= limit && size - limit == (pages - 1) * limit
  {
    assert (pages - 1) * limit + limit == pages * limit;
    assert (pages - 1) * limit >= 0;
  }

  lemma NotTooMany(history: seq<Row>, start: int, k: nat, size: nat, low: nat)
    requires Chronological(history) && low < k <= |history| && size >= k - low && 1000 * history[low].ms <= start
    ensures !TooMany(history, start, k, size)
  {
  }

  /** The records asked for, in time order. */
  function Wanted(history: seq<Row>, start: int, end: int): seq<Row> {
    Filter(history, InWindow(start, end))
  }

  lemma WantedStretch(history: seq<Row>, start: int, end: nat, low: nat, k: nat)
    requires Chronological(history) && k == Older(history, CeilingMs(end)) && low <= k
    requires low > 0 ==> 1000 * history[low - 1].ms < start
    ensures Filter(history[low..k], InWindow(start, end)) == Wanted(history, start, end)
  {
    hide Filter;
    hide InWindow;
    OutsideWindow(history, start, end, low, k);
    FilterStretch(history[..low], history[low..k], history[k..], InWindow(start, end));
    ThreeParts(history, low, k);
  }

  lemma ThreeParts(history: seq<Row>, low: nat, k: nat)
    requires low <= k <= |history|
    ensures history == history[..low] + (history[low..k] + history[k..])
  {
  }

  lemma FilterStretch(before: seq<Row>, page: seq<Row>, after: seq<Row>, keep: Row -> bool)
    requires forall x :: x in before || x in after ==> !keep(x)
    ensures Filter(before + (page + after), keep) == Filter(page, keep)
  {
    FilterNone(before, keep);
    FilterNone(after, keep);
    FilterAppend(before, page + after, keep);
    FilterAppend(page, after, keep);
    hide Filter;
    assert [] + (Filter(page, keep) + []) == Filter(page, keep);
  }

  lemma OutsideWindow(history: seq<Row>, start: int, end: nat, low: nat, k: nat)
    requires Chronological(history) && k == Older(history, CeilingMs(end)) && low <= k
    requires low > 0 ==> 1000 * history[low - 1].ms < start
    ensures forall x :: x in history[..low] || x in history[k..] ==> !InWindow(start, end)(x)
  {
    OlderLaw(history, CeilingMs(end));
    assert forall i :: 0 <= i < low ==> history[i].ms <= history[low - 1].ms;
    hide Chronological;
    hide Older;
  }

  /** Candles and funding, one record per millisecond: the loop fetches every record of the window exactly once,
      or stops at the page guard, which happens exactly when `pages` full pages do not reach the start. */
  lemma DistinctTimesFetchAll(history: seq<Row>, start: int, end: nat, limit: nat, pages: nat)
    requires DistinctTimes(history) && limit > 0 && pages > 0
    ensures var k := Older(history, CeilingMs(end)); var f := Fetched(history, start, limit, k, pages);
            && (f.Failure? <==> TooMany(history, start, k, pages * limit)) && (f.Failure? ==> f.error == PageGuard)
            && (f.Success? ==> Filter(f.value, InWindow(start, end)) == Wanted(history, start, end))
  {
    var k := Older(history, CeilingMs(end));
    DistinctNeverSplit(history, start, limit, k, pages);
    var low := Stretch(history, start, limit, k, pages, pages * limit);
    if Fetched(history, start, limit, k, pages).Success? {
      WantedStretch(history, start, end, low, k);
    }
  }

  // ---------------------------------------------------------------- trades, many to the millisecond

  lemma {:induction false} FetchedBelow(history: seq<Row>, start: int, limit: nat, k: nat, pages: nat)
    requires Chronological(history) && k <= |history| && limit > 0 && pages > 0
    ensures var f := Fetched(history, start, limit, k, pages);
            f.Success? ==> forall x :: x in f.value ==> x in history[..k]
    decreases pages
  {
    if k > 0 {
      FetchedStep(history, start, limit, k, pages);
      var low := Start(k, limit);
      var next := Older(history, history[low].ms);
      NotBelow(history, low);
      hide Older;
      hide Stops;
      hide Chronological;
      InFront(history, low, k);
      InFront(history, next, k);
      if !Stops(history, start, limit, k) && pages > 1 {
        FetchedBelow(history, start, limit, next, pages - 1);
      }
      hide Fetched;
    }
  }

  lemma NotBelow(history: seq<Row>, low: nat)
    requires Chronological(history) && low < |history|
    ensures Older(history, history[low].ms) <= low
  {
    OlderLaw(history, history[low].ms);
  }

  lemma InFront(history: seq<Row>, low: nat, k: nat)
    requires low <= k <= |history|
    ensures forall x :: x in history[low..k] ==> x in history[..k]
    ensures forall x :: x in history[..low] ==> x in history[..k]
  {
    assert history[..k] == history[..low] + history[low..k];
  }

  lemma NotLater(history: seq<Row>, i: nat, low: nat)
    requires DistinctIds(history) && i < low <= |history|
    ensures history[i] !in history[low..]
  {
    var rest := history[low..];
    forall j | 0 <= j < |rest|
      ensures rest[j] != history[i]
    {
      assert history[low + j].id != history[i].id;
    }
  }

  lemma NotEarlier(history: seq<Row>, i: nat, next: nat)
    requires DistinctIds(history) && next <= i < |history|
    ensures history[i] !in history[..next]
  {
    forall j | 0 <= j < next
      ensures history[j] != history[i]
    {
    }
  }

  /** A page boundary inside a millisecond loses the rows of that millisecond on its far side. */
  lemma {:induction false} SplitLoses(history: seq<Row>, start: int, end: nat, limit: nat, k: nat, pages: nat) returns (i: nat)
    requires Chronological(history) && DistinctIds(history) && limit > 0 && pages > 0
    requires k <= Older(history, CeilingMs(end)) && !NoSplit(history, start, limit, k, pages)
    requires Fetched(history, start, limit, k, pages).Success?
    ensures i < k && history[i] !in Fetched(history, start, limit, k, pages).value && start <= 1000 * history[i].ms < end
    decreases pages
  {
    var low := Start(k, limit);
    var next := Older(history, history[low].ms);
    FetchedStep(history, start, limit, k, pages);
    hide Fetched;
    AcrossSplit(history, end, k, low);
    InPage(history, low, k);
    if 1000 * history[low].ms > start && next == low {
      i := SplitLoses(history, start, end, limit, low, pages - 1);
    } else {
      i := low - 1;
      if 1000 * history[low].ms > start {
        FetchedBelow(history, start, limit, next, pages - 1);
        NotEarlier(history, i, next);
      }
    }
    NotLater(history, i, low);
  }

  lemma InPage(history: seq<Row>, low: nat, k: nat)
    requires low <= k <= |history|
    ensures forall x :: x in history[low..k] ==> x in history[low..]
  {
    assert history[low..] == history[low..k] + history[k..];
  }

  lemma AcrossSplit(history: seq<Row>, end: nat, k: nat, low: nat)
    requires Chronological(history) && low < k <= Older(history, CeilingMs(end))
    ensures forall i :: 0 <= i < k ==> 1000 * history[i].ms < end
    ensures var next := Older(history, history[low].ms); next <= low && (next < low ==> history[low - 1].ms == history[low].ms)
  {
    OlderLaw(history, history[low].ms);
    OlderLaw(history, CeilingMs(end));
  }

  /** How many rows are older than the cursor after one full page. */
  function Next(history: seq<Row>, limit: nat, k: nat): (c: nat)
    requires k <= |history|
    ensures c <= |history|
  {
    if 0 < limit <= k then Older(history, history[k - limit].ms) else 0
  }

  /** And after `i` full pages. */
  function Left(history: seq<Row>, limit: nat, k: nat, i: nat): (c: nat)
    requires k <= |history|
    ensures c <= |history|
    decreases i
  {
    if i == 0 then k else Left(history, limit, Next(history, limit, k), i - 1)
  }

  /** The page guard's case for any history: the last of `pages` pages is full and still starts after the window's
      start. */
  predicate GuardCase(history: seq<Row>, start: int, limit: nat, k: nat, pages: nat)
    requires k <= |history| && pages > 0
  {
    var c := Left(history, limit, k, pages - 1);
    0 < limit <= c && 1000 * history[c - limit].ms > start
  }

  lemma {:induction false} LeftFalls(history: seq<Row>, limit: nat, k: nat, i: nat)
    requires Chronological(history) && k <= |history|
    ensures Left(history, limit, k, i) <= k
    decreases i
  {
    hide Older;
    if i > 0 {
      if 0 < limit <= k {
        NotBelow(history, k - limit);
      }
      LeftFalls(history, limit, Next(history, limit, k), i - 1);
    }
  }

  lemma GuardStep(history: seq<Row>, start: int, limit: nat, k: nat, pages: nat)
    requires k <= |history| && pages > 1
    ensures GuardCase(history, start, limit, k, pages) <==> GuardCase(history, start, limit, Next(history, limit, k), pages - 1)
  {
    hide Next;
  }

  /** A full page that starts at the window's start or before it is the last. */
  lemma NoGuardBehind(history: seq<Row>, start: int, limit: nat, k: nat, pages: nat)
    requires Chronological(history) && 0 < limit <= k <= |history| && pages > 0 && 1000 * history[k - limit].ms <= start
    ensures !GuardCase(history, start, limit, k, pages)
  {
    var c := Left(history, limit, k, pages - 1);
    LeftFalls(history, limit, k, pages - 1);
    hide Left;
    assert limit <= c ==> history[c - limit].ms <= history[k - limit].ms;
  }

  lemma NoGuardShort(history: seq<Row>, start: int, limit: nat, k: nat, pages: nat)
    requires Chronological(history) && k <= |history| && k < limit && pages > 0
    ensures !GuardCase(history, start, limit, k, pages)
  {
    LeftFalls(history, limit, k, pages - 1);
    hide Left;
  }

  /** A fetch ends with the page guard, and with nothing else, exactly in that case. */
  lemma {:induction false} GuardLaw(history: seq<Row>, start: int, limit: nat, k: nat, pages: nat)
    requires Chronological(history) && k <= |history| && limit > 0 && pages > 0
    ensures var f := Fetched(history, start, limit, k, pages);
            (f.Failure? <==> GuardCase(history, start, limit, k, pages)) && (f.Failure? ==> f.error == PageGuard)
    decreases pages
  {
    hide Chronological;
    hide Older;
    if k < limit {
      NoGuardShort(history, start, limit, k, pages);
      hide GuardCase;
    } else {
      FetchedStep(history, start, limit, k, pages);
      hide Fetched;
      if 1000 * history[k - limit].ms <= start {
        NoGuardBehind(history, start, limit, k, pages);
        hide GuardCase;
      } else if pages > 1 {
        GuardLaw(history, start, limit, Next(history, limit, k), pages - 1);
        GuardStep(history, start, limit, k, pages);
        hide GuardCase;
      } else {
        assert Left(history, limit, k, 0) == k;
      }
    }
  }

  /** No row is fetched twice. */
  lemma {:induction false} FetchedOnce(history: seq<Row>, start: int, limit: nat, k: nat, pages: nat)
    requires Chronological(history) && k <= |history| && limit > 0 && pages > 0
    ensures var f := Fetched(history, start, limit, k, pages); f.Success? ==> multiset(f.value) <= multiset(history[..k])
    decreases pages
  {
    if k > 0 {
      FetchedStep(history, start, limit, k, pages);
      var low := Start(k, limit);
      var next := Older(history, history[low].ms);
      NotBelow(history, low);
      hide Older;
      hide Stops;
      hide Chronological;
      PageAndRest(history, next, low, k, []);
      if !Stops(history, start, limit, k) && pages > 1 {
        FetchedOnce(history, start, limit, next, pages - 1);
        var rest := Fetched(history, start, limit, next, pages - 1);
        hide Fetched;
        if rest.Success? {
          PageAndRest(history, next, low, k, rest.value);
        }
      }
    }
  }

  lemma PageAndRest(history: seq<Row>, next: nat, low: nat, k: nat, rest: seq<Row>)
    requires next <= low <= k <= |history| && multiset(rest) <= multiset(history[..next])
    ensures multiset(rest + history[low..k]) <= multiset(history[..k])
    ensures multiset(history[low..k]) <= multiset(history[..k])
  {
    TwoParts(history, low, k);
    TwoParts(history, next, low);
  }

  lemma TwoParts(history: seq<Row>, low: nat, k: nat)
    requires low <= k <= |history|
    ensures multiset(history[..k]) == multiset(history[..low]) + multiset(history[low..k])
  {
    assert history[..k] == history[..low] + history[low..k];
  }

  lemma {:induction false} FewerFiltered(xs: seq<Row>, ys: seq<Row>, keep: Row -> bool)
    requires multiset(xs) <= multiset(ys)
    ensures multiset(Filter(xs, keep)) <= multiset(Filter(ys, keep))
  {
    forall x: Row
      ensures multiset(Filter(xs, keep))[x] <= multiset(Filter(ys, keep))[x]
    {
      FilterCount(xs, keep, x);
      FilterCount(ys, keep, x);
    }
  }

  /** Trades share milliseconds.  Whatever the page boundaries, a fetch returns no trade twice and none from outside
      the window, and fails exactly in the page guard's case; it returns every trade of the window exactly when no
      boundary fell between two trades of one millisecond. */
  lemma TradesFetchAllUnlessSplit(history: seq<Row>, start: int, end: nat, limit: nat, pages: nat)
    requires Chronological(history) && DistinctIds(history) && limit > 0 && pages > 0
    ensures var k := Older(history, CeilingMs(end)); var f := Fetched(history, start, limit, k, pages);
            && (f.Failure? <==> GuardCase(history, start, limit, k, pages)) && (f.Failure? ==> f.error == PageGuard)
            && (f.Success? ==> multiset(Filter(f.value, InWindow(start, end))) <= multiset(Wanted(history, start, end)))
            && (f.Success? ==> (multiset(Filter(f.value, InWindow(start, end))) == multiset(Wanted(history, start, end))
                                <==> NoSplit(history, start, limit, k, pages)))
  {
    var k := Older(history, CeilingMs(end));
    var f := Fetched(history, start, limit, k, pages);
    GuardLaw(history, start, limit, k, pages);
    if f.Success? {
      FetchedOnce(history, start, limit, k, pages);
      TwoParts(history, k, |history|);
      assert history[..|history|] == history;
      FewerFiltered(f.value, history, InWindow(start, end));
      SplitDecides(history, start, end, limit, pages);
    }
    hide Fetched;
    hide Older;
    hide Filter;
    hide NoSplit;
    hide GuardCase;
  }

  lemma SplitDecides(history: seq<Row>, start: int, end: nat, limit: nat, pages: nat)
    requires Chronological(history) && DistinctIds(history) && limit > 0 && pages > 0
    requires Fetched(history, start, limit, Older(history, CeilingMs(end)), pages).Success?
    ensures var k := Older(history, CeilingMs(end)); var f := Fetched(history, start, limit, k, pages);
            multiset(Filter(f.value, InWindow(start, end))) == multiset(Wanted(history, start, end)) <==> NoSplit(history, start, limit, k, pages)
  {
    var k := Older(history, CeilingMs(end));
    var f := Fetched(history, start, limit, k, pages);
    if NoSplit(history, start, limit, k, pages) {
      var low := Stretch(history, start, limit, k, pages, pages * limit);
      WantedStretch(history, start, end, low, k);
    } else {
      var i := SplitLoses(history, start, end, limit, k, pages);
      var x, within := history[i], InWindow(start, end);
      FilterMember(history, within, x);
      FilterMember(f.value, within, x);
      assert x in multiset(Wanted(history, start, end)) && x !in multiset(Filter(f.value, within));
    }
  }

  /** Two trades of one millisecond and pages of one trade: the loop ends without the older one. */
  lemma SplitMillisecondLosesATrade()
    ensures var history := [Row(0, 5), Row(1, 5)];
            && Fetched(history, 0, 1, Older(history, CeilingMs(6000)), 9) == Success([Row(1, 5)])
            && Wanted(history, 0, 6000) == history
  {
    var history := [Row(0, 5), Row(1, 5)];
    assert history[1..] == [Row(1, 5)] && history[1..][1..] == [];
    assert Older(history[1..], 6) == 1 && Older(history, 6) == 2 && Older(history, 5) == 0;
    assert history[1..2] == [Row(1, 5)];
    assert [] + [Row(1, 5)] == [Row(1, 5)];
    assert Filter(history[1..], InWindow(0, 6000)) == [Row(1, 5)];
  }

  lemma ByTimeIsTotal(tie: Row -> nat)
    ensures TotalPreorder(ByTime(tie))
  {
  }

  /** With one record per millisecond the returned list is the window's records in time order. */
  lemma WantedIsInOrder(history: seq<Row>, start: int, end: int, tie: Row -> nat)
    requires DistinctTimes(history)
    ensures Sort(Wanted(history, start, end), ByTime(tie)) == Wanted(history, start, end)
  {
    var wanted, le := Wanted(history, start, end), ByTime(tie);
    ByTimeIsTotal(tie);
    assert Ordered(history, le);
    FilterOrdered(history, InWindow(start, end), le);
    forall x, y | x in wanted && y in wanted && le(x, y) && le(y, x)
      ensures x == y
    {
      FilterMember(history, InWindow(start, end), x);
      FilterMember(history, InWindow(start, end), y);
    }
    SortIdle(wanted, le);
  }

  /** The records asked for are those of the history in the half-open window, each as often as it is there. */
  lemma WantedLaw(history: seq<Row>, start: int, end: int, r: Row)
    ensures multiset(Wanted(history, start, end))[r] == if start <= 1000 * r.ms && 1000 * r.ms < end then multiset(history)[r] else 0
    ensures r in Wanted(history, start, end) <==> r in history && start <= 1000 * r.ms && 1000 * r.ms < end
  {
    FilterCount(history, InWindow(start, end), r);
    FilterMember(history, InWindow(start, end), r);
    hide Filter;
  }

  /** Rows are put in the order of their times, rows of one time in that of their tie-break. */
  lemma ByTimeLaw(rows: seq<Row>, tie: Row -> nat, i: nat, j: nat)
    requires i < j < |rows|
    ensures var sorted := Sort(rows, ByTime(tie));
            && multiset(sorted) == multiset(rows) && |sorted| == |rows|
            && (sorted[i].ms < sorted[j].ms || (sorted[i].ms == sorted[j].ms && tie(sorted[i]) <= tie(sorted[j])))
  {
    var sorted := Sort(rows, ByTime(tie));
    ByTimeIsTotal(tie);
    SortElements(rows, ByTime(tie));
    SortOrdered(rows, ByTime(tie));
    assert |sorted| == |multiset(sorted)| == |multiset(rows)| == |rows|;
    hide Sort;
    assert ByTime(tie)(sorted[i], sorted[j]);
  }
}
