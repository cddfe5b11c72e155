/** What each adapter returns for a window: the wanted records, or the page guard exactly when max_pages is too small. */
module Fetches {
  import opened Results
  import opened Sorting
  import opened BackwardPages
  import opened ForwardPages

  lemma TimesApart(history: seq<Row>)
    requires DistinctTimes(history)
    ensures Chronological(history) && KeysApart(CANDLES.key, history) && KeysApart(FUNDING.key, history)
  {
  }

  lemma IdsApart(history: seq<Row>)
    requires DistinctIds(history)
    ensures KeysApart(TRADES.key, history)
  {
  }

  /** OKX candles, one to the millisecond. */
  method FetchCandles(serve: Server, ghost history: seq<Row>, tie: Row -> nat, start: nat, end: nat, limit: nat, pages: nat)
    returns (r: Result<seq<Row>, PageError>)
    requires limit > 0 && pages > 0 && ServesBackward(serve, history, limit) && DistinctTimes(history) && KeysApart(tie, history)
    ensures r == if TooMany(history, start, Older(history, CeilingMs(end)), pages * limit) then Failure(PageGuard)
                 else Success(Wanted(history, start, end))
  {
    TimesApart(history);
    DistinctTimesFetchAll(history, start, end, limit, pages);
    WantedIsInOrder(history, start, end, tie);
    hide Fetched;
    hide Wanted;
    hide TooMany;
    r := FetchBackward(serve, history, CANDLES, tie, start, end, limit, pages);
  }

  /** OKX funding records, one to the millisecond. */
  method FetchFundingHistory(serve: Server, ghost history: seq<Row>, tie: Row -> nat, start: nat, end: nat, limit: nat, pages: nat)
    returns (r: Result<seq<Row>, PageError>)
    requires limit > 0 && pages > 0 && ServesBackward(serve, history, limit) && DistinctTimes(history) && KeysApart(tie, history)
    ensures r == if TooMany(history, start, Older(history, CeilingMs(end)), pages * limit) then Failure(PageGuard)
                 else Success(Wanted(history, start, end))
  {
    TimesApart(history);
    DistinctTimesFetchAll(history, start, end, limit, pages);
    WantedIsInOrder(history, start, end, tie);
    hide Fetched;
    hide Wanted;
    hide TooMany;
    r := FetchBackward(serve, history, FUNDING, tie, start, end, limit, pages);
  }

  /** OKX trades, many to the millisecond: all of the window's, sorted, unless a page boundary splits a millisecond. */
  method FetchTradeHistory(serve: Server, ghost history: seq<Row>, tie: Row -> nat, start: nat, end: nat, limit: nat, pages: nat)
    returns (r: Result<seq<Row>, PageError>)
    requires limit > 0 && pages > 0 && ServesBackward(serve, history, limit)
    requires Chronological(history) && DistinctIds(history) && KeysApart(tie, history)
    ensures var k := Older(history, CeilingMs(end));
            && (r.Failure? <==> GuardCase(history, start, limit, k, pages)) && (r.Failure? ==> r.error == PageGuard)
            && (r.Success? ==> Ordered(r.value, ByTime(tie)) && multiset(r.value) <= multiset(Wanted(history, start, end)))
            && (r.Success? ==> (r.value == Sort(Wanted(history, start, end), ByTime(tie)) <==> NoSplit(history, start, limit, k, pages)))
  {
    IdsApart(history);
    TradesReturned(history, tie, start, end, limit, pages);
    hide Fetched;
    hide GuardCase;
    hide NoSplit;
    hide Older;
    hide Sort;
    hide Filter;
    hide Ordered;
    r := FetchBackward(serve, history, TRADES, tie, start, end, limit, pages);
  }

  lemma TradesReturned(history: seq<Row>, tie: Row -> nat, start: nat, end: nat, limit: nat, pages: nat)
    requires limit > 0 && pages > 0 && Chronological(history) && DistinctIds(history) && KeysApart(tie, history)
    ensures var k := Older(history, CeilingMs(end)); var f := Fetched(history, start, limit, k, pages);
            && (f.Failure? <==> GuardCase(history, start, limit, k, pages)) && (f.Failure? ==> f.error == PageGuard)
            && (f.Success? ==>
                  var r := Sort(Filter(f.value, InWindow(start, end)), ByTime(tie));
                  && Ordered(r, ByTime(tie)) && multiset(r) <= multiset(Wanted(history, start, end))
                  && (r == Sort(Wanted(history, start, end), ByTime(tie)) <==> NoSplit(history, start, limit, k, pages)))
  {
    TradesFetchAllUnlessSplit(history, start, end, limit, pages);
    forall x | x in Wanted(history, start, end)
      ensures x in history
    {
      FilterMember(history, InWindow(start, end), x);
    }
    var f := Fetched(history, start, limit, Older(history, CeilingMs(end)), pages);
    if f.Success? {
      SortedTrades(history, tie, Filter(f.value, InWindow(start, end)), Wanted(history, start, end));
    }
    hide Fetched;
    hide GuardCase;
    hide NoSplit;
    hide Older;
    hide Sort;
    hide Filter;
    hide Wanted;
  }

  lemma SortedTrades(history: seq<Row>, tie: Row -> nat, got: seq<Row>, wanted: seq<Row>)
    requires KeysApart(tie, history) && forall x :: x in wanted ==> x in history
    ensures Ordered(Sort(got, ByTime(tie)), ByTime(tie)) && multiset(Sort(got, ByTime(tie))) == multiset(got)
    ensures Sort(got, ByTime(tie)) == Sort(wanted, ByTime(tie)) <==> multiset(got) == multiset(wanted)
  {
    ByTimeIsTotal(tie);
    SortOrdered(got, ByTime(tie));
    SortElements(got, ByTime(tie));
    SortElements(wanted, ByTime(tie));
    hide Sort;
    if multiset(got) == multiset(wanted) {
      SortedAlike(history, tie, got, wanted);
    }
  }

  /** Binance funding records, one to the millisecond. */
  method FetchFundingRates(serve: WindowServer, ghost history: seq<Row>, tie: Row -> nat, start: nat, end: nat, limit: nat, pages: nat)
    returns (r: Result<seq<Row>, PageError>)
    requires limit > 0 && pages > 0 && start < end && ServesWindow(serve, history, limit)
    requires DistinctTimes(history) && KeysApart(tie, history)
    ensures r == if TooFar(Wanted(history, start, end), 0, pages * limit, PastEnd(FloorBefore(end))) then Failure(PageGuard)
                 else Success(Wanted(history, start, end))
  {
    FundingFetchesAll(history, start, end, limit, pages);
    WantedIsInOrder(history, start, end, tie);
    hide Walk;
    hide Wanted;
    hide TooFar;
    r := FetchFunding(serve, history, tie, start, end, limit, pages);
  }

  /** Binance aggregate trades, times nondecreasing in id: all of the window's, sorted by time. */
  method FetchAggregateTrades(serveWindow: WindowServer, serveIds: IdServer, ghost history: seq<Row>, tie: Row -> nat,
                              start: nat, end: nat, limit: nat, pages: nat)
    returns (r: Result<seq<Row>, PageError>)
    requires limit > 0 && pages > 0 && start < end
    requires ServesWindow(serveWindow, history, limit) && ServesIds(serveIds, history, limit)
    requires RisingIds(history) && Chronological(history) && KeysApart(tie, history)
    ensures r == if TooFar(FromWindow(history, start), 0, pages * limit, AtEnd(end)) then Failure(PageGuard)
                 else Success(Sort(Wanted(history, start, end), ByTime(tie)))
  {
    AggTradesFetchAll(history, start, end, limit, pages);
    hide AggFetched;
    hide Wanted;
    hide TooFar;
    hide Sort;
    r := FetchAggTrades(serveWindow, serveIds, history, tie, start, end, limit, pages);
  }
}
