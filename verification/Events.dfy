/** The backtest's inputs, their validation, and the total order in which the engine meets them
    (`_validate` in backtesting/engine.py). */
module Events {
  import opened Results
  import opened Models
  import opened Sorting
  import opened Sizing

  /** `closeAt` is the instant at which the bar becomes available. */
  datatype Bar = Bar(series: Series, openAt: Time, closeAt: Time, open: real, high: real, low: real, close: real,
                     volume: real, final: bool)

  datatype Signal = Signal(series: Series, at: Time, direction: Direction, digest: nat)

  datatype FundingRate = FundingRate(series: Series, at: Time, rate: real, predictedOnly: bool, grounded: bool)

  datatype Request = Request(bars: seq<Bar>, signals: seq<Signal>, rates: seq<FundingRate>, currency: string)

  datatype Payload = Completed(bar: Bar) | ClosingMark(bar: Bar) | Funded(rate: FundingRate) | Signalled(signal: Signal) | Opening(bar: Bar)

  datatype Event = Event(at: Time, priority: nat, series: Digest, digest: nat, payload: Payload)

  /** The content hashes of bars and funding records, which only break ties. */
  datatype Hashes = Hashes(bar: Bar -> nat, rate: FundingRate -> nat)

  datatype Key = Key(at: Time, priority: nat, series: Digest, digest: nat)

  function KeyOf(e: Event): Key {
    Key(e.at, e.priority, e.series, e.digest)
  }

  predicate KeyBefore(x: Key, y: Key) {
    x.at < y.at || (x.at == y.at && (x.priority < y.priority || (x.priority == y.priority &&
      (x.series < y.series || (x.series == y.series && x.digest <= y.digest)))))
  }

  predicate Before(x: Event, y: Event) {
    KeyBefore(KeyOf(x), KeyOf(y))
  }

  // ---------------------------------------------------------------- events of a request

  function Completion(h: Hashes): Bar -> Event {
    (b: Bar) => Event(b.closeAt, 1, b.series.digest, h.bar(b), Completed(b))
  }

  function Closing(h: Hashes): Bar -> Event {
    (b: Bar) => Event(b.closeAt, 2, b.series.digest, h.bar(b), ClosingMark(b))
  }

  function Start(h: Hashes): Bar -> Event {
    (b: Bar) => Event(b.openAt, 5, b.series.digest, h.bar(b), Opening(b))
  }

  function SignalEvent(s: Signal): Event {
    Event(s.at, 4, s.series.digest, s.digest, Signalled(s))
  }

  function Payday(h: Hashes): FundingRate -> Event {
    (r: FundingRate) => Event(r.at, 3, r.series.digest, h.rate(r), Funded(r))
  }

  function AllEvents(r: Request, h: Hashes): seq<Event> {
    Map(r.bars, Completion(h)) + Map(r.bars, Closing(h)) + Map(r.bars, Start(h)) + Map(r.signals, SignalEvent) + Map(r.rates, Payday(h))
  }

  /** The order in which the engine runs. */
  function Ordering(r: Request, h: Hashes): seq<Event> {
    Sort(AllEvents(r, h), Before)
  }

  // ---------------------------------------------------------------- validity

  function Upper(s: string): string {
    seq(|s|, i requires 0 <= i < |s| => if 'a' <= s[i] <= 'z' then (s[i] as int - 32) as char else s[i])
  }

  /** The part of a pair's symbol after its last separator. */
  function QuoteAsset(symbol: string): Option<string> {
    if symbol == [] then None
    else
      var last := symbol[|symbol| - 1];
      if last == '-' || last == '/' then Some("")
      else
        var rest := QuoteAsset(symbol[..|symbol| - 1]);
        if rest.None? then None else Some(rest.value + [last])
  }

  predicate ValidBar(b: Bar) {
    && b.series.instrument.provider != "legacy" && b.final && b.closeAt > b.openAt
    && b.low <= b.open <= b.high && b.low <= b.close <= b.high && b.volume >= 0.0
  }

  /** Everything is accounted in the base currency. */
  predicate Settles(i: Instrument, currency: string) {
    match i.kind
    case SpotPair => var quote := QuoteAsset(i.symbol); quote.Some? && quote.value != "" && Upper(quote.value) == currency
    case PerpetualSwap => i.settlement.Some? && Upper(i.settlement.value) == currency
    case OtherKind => true
  }

  function BarKey(b: Bar): (Digest, Time) {
    (b.series.digest, b.openAt)
  }

  function SignalKey(s: Signal): (Digest, Time) {
    (s.series.digest, s.at)
  }

  function RateKey(r: FundingRate): (Digest, Time) {
    (r.series.digest, r.at)
  }

  predicate Informed(s: Signal, bars: seq<Bar>) {
    exists i :: 0 <= i < |bars| && bars[i].series.digest == s.series.digest && bars[i].closeAt <= s.at
  }

  predicate ValidRate(r: FundingRate, bars: seq<Bar>, currency: string) {
    && r.series.instrument.kind == PerpetualSwap && Settles(r.series.instrument, currency)
    && exists i :: 0 <= i < |bars| && bars[i].series.instrument == r.series.instrument
  }

  predicate ValidRequest(r: Request, h: Hashes) {
    && r.bars != []
    && (forall b :: b in r.bars ==> ValidBar(b) && Settles(b.series.instrument, r.currency))
    && (forall s :: s in r.signals ==> Informed(s, r.bars))
    && (forall x :: x in r.rates ==> ValidRate(x, r.bars, r.currency))
    && Distinct(Map(r.bars, BarKey)) && Distinct(Map(r.signals, SignalKey)) && Distinct(Map(r.rates, RateKey))
    && Distinct(Map(AllEvents(r, h), KeyOf))
  }

  // ---------------------------------------------------------------- order

  lemma BeforeIsTotal()
    ensures TotalPreorder(Before)
  {
  }

  lemma DistinctByKey(xs: seq<Event>)
    requires Distinct(Map(xs, KeyOf))
    ensures DistinctKeys(xs, Before)
  {
    forall x, y | x in xs && y in xs && Before(x, y) && Before(y, x)
      ensures x == y
    {
      var i :| 0 <= i < |xs| && xs[i] == x;
      var j :| 0 <= j < |xs| && xs[j] == y;
      assert Map(xs, KeyOf)[i] == Map(xs, KeyOf)[j];
    }
  }

  predicate Rearranged(r: Request, q: Request) {
    && multiset(r.bars) == multiset(q.bars) && multiset(r.signals) == multiset(q.signals)
    && multiset(r.rates) == multiset(q.rates) && r.currency == q.currency
  }

  lemma SameEvents(r: Request, q: Request, h: Hashes)
    requires Rearranged(r, q)
    ensures multiset(AllEvents(r, h)) == multiset(AllEvents(q, h))
  {
    MapElements(r.bars, q.bars, Completion(h));
    MapElements(r.bars, q.bars, Closing(h));
    MapElements(r.bars, q.bars, Start(h));
    MapElements(r.signals, q.signals, SignalEvent);
    MapElements(r.rates, q.rates, Payday(h));
  }

  lemma SameInformed(s: Signal, xs: seq<Bar>, ys: seq<Bar>)
    requires multiset(xs) == multiset(ys) && Informed(s, xs)
    ensures Informed(s, ys)
  {
    var i :| 0 <= i < |xs| && xs[i].series.digest == s.series.digest && xs[i].closeAt <= s.at;
    InMultiset(xs, ys, xs[i]);
    var j :| 0 <= j < |ys| && ys[j] == xs[i];
  }

  lemma SameValidRate(x: FundingRate, xs: seq<Bar>, ys: seq<Bar>, currency: string)
    requires multiset(xs) == multiset(ys) && ValidRate(x, xs, currency)
    ensures ValidRate(x, ys, currency)
  {
    var i :| 0 <= i < |xs| && xs[i].series.instrument == x.series.instrument;
    InMultiset(xs, ys, xs[i]);
    var j :| 0 <= j < |ys| && ys[j] == xs[i];
  }

  lemma RearrangedStaysValid(r: Request, q: Request, h: Hashes)
    requires Rearranged(r, q) && ValidRequest(r, h)
    ensures ValidRequest(q, h)
  {
    hide Settles;
    hide ValidBar;
    forall b | b in q.bars
      ensures ValidBar(b) && Settles(b.series.instrument, q.currency)
    {
      InMultiset(r.bars, q.bars, b);
    }
    forall s | s in q.signals
      ensures Informed(s, q.bars)
    {
      InMultiset(r.signals, q.signals, s);
      SameInformed(s, r.bars, q.bars);
    }
    forall x | x in q.rates
      ensures ValidRate(x, q.bars, q.currency)
    {
      InMultiset(r.rates, q.rates, x);
      SameValidRate(x, r.bars, q.bars, q.currency);
    }
    RearrangedStaysDistinct(r, q, h);
    InMultiset(r.bars, q.bars, r.bars[0]);
  }

  lemma RearrangedStaysDistinct(r: Request, q: Request, h: Hashes)
    requires Rearranged(r, q)
    requires Distinct(Map(r.bars, BarKey)) && Distinct(Map(r.signals, SignalKey)) && Distinct(Map(r.rates, RateKey))
    requires Distinct(Map(AllEvents(r, h), KeyOf))
    ensures Distinct(Map(q.bars, BarKey)) && Distinct(Map(q.signals, SignalKey)) && Distinct(Map(q.rates, RateKey))
    ensures Distinct(Map(AllEvents(q, h), KeyOf))
  {
    SameEvents(r, q, h);
    MapElements(r.bars, q.bars, BarKey);
    MapElements(r.signals, q.signals, SignalKey);
    MapElements(r.rates, q.rates, RateKey);
    MapElements(AllEvents(r, h), AllEvents(q, h), KeyOf);
    DistinctElements(Map(r.bars, BarKey), Map(q.bars, BarKey));
    DistinctElements(Map(r.signals, SignalKey), Map(q.signals, SignalKey));
    DistinctElements(Map(r.rates, RateKey), Map(q.rates, RateKey));
    DistinctElements(Map(AllEvents(r, h), KeyOf), Map(AllEvents(q, h), KeyOf));
  }

  /** However bars, signals and funding are listed, the request is valid or not alike and runs in the same order. */
  lemma InputOrderIrrelevant(r: Request, q: Request, h: Hashes)
    requires Rearranged(r, q)
    ensures ValidRequest(r, h) <==> ValidRequest(q, h)
    ensures ValidRequest(r, h) ==> Ordering(r, h) == Ordering(q, h)
  {
    if ValidRequest(r, h) {
      RearrangedStaysValid(r, q, h);
      SameEvents(r, q, h);
      DistinctByKey(AllEvents(r, h));
      BeforeIsTotal();
      SortUnique(AllEvents(r, h), AllEvents(q, h), Before);
    }
    if ValidRequest(q, h) {
      RearrangedStaysValid(q, r, h);
    }
  }

  // ---------------------------------------------------------------- what can be seen by an instant

  function By(t: Time): Event -> bool {
    (e: Event) => e.at <= t
  }

  function ClosedBy(t: Time): Bar -> bool {
    (b: Bar) => b.closeAt <= t
  }

  function OpenedBy(t: Time): Bar -> bool {
    (b: Bar) => b.openAt <= t
  }

  function RaisedBy(t: Time): Signal -> bool {
    (s: Signal) => s.at <= t
  }

  function PaidBy(t: Time): FundingRate -> bool {
    (x: FundingRate) => x.at <= t
  }

  /** What is known of a bar when it opens: its series, its open time and its open price. */
  function AtOpen(b: Bar): Bar {
    b.(closeAt := b.openAt, high := b.open, low := b.open, close := b.open, volume := 0.0, final := true)
  }

  /** An opening event without the part of its bar that is still to come; any other event as it is. */
  function Veil(e: Event): Event {
    if e.payload.Opening? then e.(digest := 0, payload := Opening(AtOpen(e.payload.bar))) else e
  }

  /** The two requests tell the same story up to `t`; bars still open at `t` need only open alike. */
  ghost predicate AgreeUpTo(r: Request, q: Request, t: Time) {
    && multiset(Filter(r.bars, ClosedBy(t))) == multiset(Filter(q.bars, ClosedBy(t)))
    && multiset(Map(Filter(r.bars, OpenedBy(t)), AtOpen)) == multiset(Map(Filter(q.bars, OpenedBy(t)), AtOpen))
    && multiset(Filter(r.signals, RaisedBy(t))) == multiset(Filter(q.signals, RaisedBy(t)))
    && multiset(Filter(r.rates, PaidBy(t))) == multiset(Filter(q.rates, PaidBy(t)))
  }

  function Seen(r: Request, h: Hashes, t: Time): seq<Event> {
    Filter(Ordering(r, h), By(t))
  }

  function VeiledStart(b: Bar): Event {
    Event(b.openAt, 5, b.series.digest, 0, Opening(b))
  }

  function VeiledParts(r: Request, h: Hashes, t: Time): seq<Event> {
    Map(Filter(r.bars, ClosedBy(t)), Completion(h)) + Map(Filter(r.bars, ClosedBy(t)), Closing(h))
    + Map(Map(Filter(r.bars, OpenedBy(t)), AtOpen), VeiledStart) + Map(Filter(r.signals, RaisedBy(t)), SignalEvent)
    + Map(Filter(r.rates, PaidBy(t)), Payday(h))
  }

  lemma {:induction false} VeilMap<T>(xs: seq<T>, make: T -> Event, t: Time, keep: T -> bool, veiled: T -> Event)
    requires forall x :: x in xs ==> keep(x) == (make(x).at <= t) && Veil(make(x)) == veiled(x)
    ensures Map(Filter(Map(xs, make), By(t)), Veil) == Map(Filter(xs, keep), veiled)
  {
    if xs != [] {
      VeilMap(xs[1..], make, t, keep, veiled);
      assert Map(xs, make)[1..] == Map(xs[1..], make);
      MapAppend(if keep(xs[0]) then [make(xs[0])] else [], Filter(Map(xs[1..], make), By(t)), Veil);
      MapAppend(if keep(xs[0]) then [xs[0]] else [], Filter(xs[1..], keep), veiled);
    }
  }

  lemma VeilAppend(xs: seq<Event>, ys: seq<Event>, t: Time)
    ensures Map(Filter(xs + ys, By(t)), Veil) == Map(Filter(xs, By(t)), Veil) + Map(Filter(ys, By(t)), Veil)
  {
    FilterAppend(xs, ys, By(t));
    MapAppend(Filter(xs, By(t)), Filter(ys, By(t)), Veil);
  }

  lemma VeiledEvents(r: Request, h: Hashes, t: Time)
    ensures Map(Filter(AllEvents(r, h), By(t)), Veil) == VeiledParts(r, h, t)
  {
    hide Filter;
    var a, b, c, d, e := Map(r.bars, Completion(h)), Map(r.bars, Closing(h)), Map(r.bars, Start(h)), Map(r.signals, SignalEvent), Map(r.rates, Payday(h));
    VeilAppend(a + b + c + d, e, t);
    VeilAppend(a + b + c, d, t);
    VeilAppend(a + b, c, t);
    VeilAppend(a, b, t);
    VeilMap(r.bars, Completion(h), t, ClosedBy(t), Completion(h));
    VeilMap(r.bars, Closing(h), t, ClosedBy(t), Closing(h));
    VeilMap(r.bars, Start(h), t, OpenedBy(t), (x: Bar) => VeiledStart(AtOpen(x)));
    VeilMap(r.signals, SignalEvent, t, RaisedBy(t), SignalEvent);
    VeilMap(r.rates, Payday(h), t, PaidBy(t), Payday(h));
    var open := Filter(r.bars, OpenedBy(t));
    assert Map(open, (x: Bar) => VeiledStart(AtOpen(x))) == Map(Map(open, AtOpen), VeiledStart);
  }

  lemma SameVeiledParts(r: Request, q: Request, h: Hashes, t: Time)
    requires AgreeUpTo(r, q, t)
    ensures multiset(VeiledParts(r, h, t)) == multiset(VeiledParts(q, h, t))
  {
    hide Filter;
    MapElements(Filter(r.bars, ClosedBy(t)), Filter(q.bars, ClosedBy(t)), Completion(h));
    MapElements(Filter(r.bars, ClosedBy(t)), Filter(q.bars, ClosedBy(t)), Closing(h));
    MapElements(Map(Filter(r.bars, OpenedBy(t)), AtOpen), Map(Filter(q.bars, OpenedBy(t)), AtOpen), VeiledStart);
    MapElements(Filter(r.signals, RaisedBy(t)), Filter(q.signals, RaisedBy(t)), SignalEvent);
    MapElements(Filter(r.rates, PaidBy(t)), Filter(q.rates, PaidBy(t)), Payday(h));
  }

  /** Every event carries the time, priority and series of the record it was made from. */
  predicate WellMade(e: Event) {
    match e.payload
    case Completed(b) => e.priority == 1 && e.at == b.closeAt && e.series == b.series.digest
    case ClosingMark(b) => e.priority == 2 && e.at == b.closeAt && e.series == b.series.digest
    case Funded(x) => e.priority == 3 && e.at == x.at && e.series == x.series.digest
    case Signalled(s) => e.priority == 4 && e.at == s.at && e.series == s.series.digest
    case Opening(b) => e.priority == 5 && e.at == b.openAt && e.series == b.series.digest
  }

  /** An event of the run is one of the events made from the request, and conversely. */
  lemma EventOf(r: Request, h: Hashes, e: Event)
    ensures e in Ordering(r, h) <==>
              match e.payload
              case Completed(b) => b in r.bars && e == Completion(h)(b)
              case ClosingMark(b) => b in r.bars && e == Closing(h)(b)
              case Funded(x) => x in r.rates && e == Payday(h)(x)
              case Signalled(s) => s in r.signals && e == SignalEvent(s)
              case Opening(b) => b in r.bars && e == Start(h)(b)
    ensures e in Ordering(r, h) ==> WellMade(e)
  {
    SortElements(AllEvents(r, h), Before);
    InMultiset(Ordering(r, h), AllEvents(r, h), e);
    hide Sort;
    InMap(r.bars, Completion(h), e);
    InMap(r.bars, Closing(h), e);
    InMap(r.bars, Start(h), e);
    InMap(r.signals, SignalEvent, e);
    InMap(r.rates, Payday(h), e);
    assert e in AllEvents(r, h) <==>
      e in Map(r.bars, Completion(h)) || e in Map(r.bars, Closing(h)) || e in Map(r.bars, Start(h))
      || e in Map(r.signals, SignalEvent) || e in Map(r.rates, Payday(h));
  }

  lemma InMap<T>(xs: seq<T>, f: T -> Event, e: Event)
    ensures e in Map(xs, f) <==> exists x :: x in xs && f(x) == e
  {
    if e in Map(xs, f) {
      var i :| 0 <= i < |xs| && Map(xs, f)[i] == e;
      assert xs[i] in xs;
    }
    if x :| x in xs && f(x) == e {
      var i :| 0 <= i < |xs| && xs[i] == x;
      assert Map(xs, f)[i] == e;
    }
  }

  lemma SameBar(bars: seq<Bar>, x: Bar, y: Bar)
    requires Distinct(Map(bars, BarKey)) && x in bars && y in bars && BarKey(x) == BarKey(y)
    ensures x == y
  {
    var i :| 0 <= i < |bars| && bars[i] == x;
    var j :| 0 <= j < |bars| && bars[j] == y;
    assert Map(bars, BarKey)[i] == Map(bars, BarKey)[j];
  }

  /** Veiling keeps events apart: two openings of one series at one instant are one bar. */
  lemma VeiledOrder(r: Request, h: Hashes, x: Event, y: Event)
    requires ValidRequest(r, h) && x in Ordering(r, h) && y in Ordering(r, h)
    ensures Before(x, y) ==> Before(Veil(x), Veil(y))
    ensures Before(Veil(x), Veil(y)) && Before(Veil(y), Veil(x)) ==> x == y
  {
    EventOf(r, h, x);
    EventOf(r, h, y);
    hide Ordering;
    if Before(Veil(x), Veil(y)) && Before(Veil(y), Veil(x)) {
      if x.priority == 5 {
        SameBar(r.bars, x.payload.bar, y.payload.bar);
      } else {
        DistinctByKey(AllEvents(r, h));
        SameEvent(r, h, x, y);
      }
    }
  }

  lemma SameEvent(r: Request, h: Hashes, x: Event, y: Event)
    requires ValidRequest(r, h) && x in Ordering(r, h) && y in Ordering(r, h) && Before(x, y) && Before(y, x)
    ensures x == y
  {
    SortElements(AllEvents(r, h), Before);
    InMultiset(Ordering(r, h), AllEvents(r, h), x);
    InMultiset(Ordering(r, h), AllEvents(r, h), y);
    hide Sort;
    DistinctByKey(AllEvents(r, h));
  }

  lemma OrderingIsOrdered(r: Request, h: Hashes)
    ensures Ordered(Ordering(r, h), Before)
  {
    BeforeIsTotal();
    SortOrdered(AllEvents(r, h), Before);
  }

  /** The order of any two events: time, then priority, then series, then content. */
  lemma OrderingLaw(r: Request, h: Hashes, i: nat, j: nat)
    requires i < j < |Ordering(r, h)|
    ensures var x, y := Ordering(r, h)[i], Ordering(r, h)[j];
            || x.at < y.at
            || (x.at == y.at && x.priority < y.priority)
            || (x.at == y.at && x.priority == y.priority && x.series < y.series)
            || (x.at == y.at && x.priority == y.priority && x.series == y.series && x.digest <= y.digest)
    ensures multiset(Ordering(r, h)) == multiset(AllEvents(r, h))
  {
    BeforeIsTotal();
    SortOrdered(AllEvents(r, h), Before);
    SortElements(AllEvents(r, h), Before);
    assert Before(Ordering(r, h)[i], Ordering(r, h)[j]);
    hide Sort;
    hide AllEvents;
  }

  lemma VeiledIsOrdered(r: Request, h: Hashes, t: Time)
    requires ValidRequest(r, h)
    ensures Ordered(Map(Seen(r, h, t), Veil), Before) && DistinctKeys(Map(Seen(r, h, t), Veil), Before)
  {
    hide Ordering;
    hide ValidRequest;
    hide Before;
    hide Veil;
    var seen := Seen(r, h, t);
    OrderingIsOrdered(r, h);
    FilterOrdered(Ordering(r, h), By(t), Before);
    forall x | x in seen
      ensures x in Ordering(r, h)
    {
      FilterMember(Ordering(r, h), By(t), x);
    }
    hide Seen;
    forall i, j | 0 <= i < j < |seen|
      ensures Before(Veil(seen[i]), Veil(seen[j]))
    {
      assert seen[i] in seen && seen[j] in seen;
      VeiledOrder(r, h, seen[i], seen[j]);
    }
    var veiled := Map(seen, Veil);
    forall x, y | x in veiled && y in veiled && Before(x, y) && Before(y, x)
      ensures x == y
    {
      InMap(seen, Veil, x);
      InMap(seen, Veil, y);
      var v :| v in seen && Veil(v) == x;
      var w :| w in seen && Veil(w) == y;
      VeiledOrder(r, h, v, w);
    }
  }

  lemma VeiledElements(r: Request, h: Hashes, t: Time)
    ensures multiset(Map(Seen(r, h, t), Veil)) == multiset(VeiledParts(r, h, t))
  {
    SortElements(AllEvents(r, h), Before);
    FilterElements(Ordering(r, h), AllEvents(r, h), By(t));
    MapElements(Seen(r, h, t), Filter(AllEvents(r, h), By(t)), Veil);
    VeiledEvents(r, h, t);
  }

  /** Requests that agree up to `t` put the same veiled events, in the same order, before the engine up to `t`. */
  lemma SameStory(r: Request, q: Request, h: Hashes, t: Time)
    requires ValidRequest(r, h) && ValidRequest(q, h) && AgreeUpTo(r, q, t)
    ensures Map(Seen(r, h, t), Veil) == Map(Seen(q, h, t), Veil)
  {
    VeiledElements(r, h, t);
    VeiledElements(q, h, t);
    SameVeiledParts(r, q, h, t);
    VeiledIsOrdered(r, h, t);
    VeiledIsOrdered(q, h, t);
    OrderedUnique(Map(Seen(r, h, t), Veil), Map(Seen(q, h, t), Veil), Before);
  }

  lemma {:induction false} EarlyPrefix(xs: seq<Event>, t: Time)
    requires Ordered(xs, Before)
    ensures Filter(xs, By(t)) <= xs
  {
    if xs != [] {
      if xs[0].at > t {
        assert forall i :: 0 < i < |xs| ==> Before(xs[0], xs[i]);
        FilterNone(xs, By(t));
      } else {
        assert forall i, j :: 0 <= i < j < |xs[1..]| ==> Before(xs[1..][i], xs[1..][j]);
        EarlyPrefix(xs[1..], t);
        assert xs == [xs[0]] + xs[1..];
      }
    }
  }

  /** The events up to an instant are the first events of the run. */
  lemma SeenFirst(r: Request, h: Hashes, t: Time)
    ensures Seen(r, h, t) <= Ordering(r, h)
  {
    OrderingIsOrdered(r, h);
    EarlyPrefix(Ordering(r, h), t);
    hide Filter;
    hide Ordering;
  }

  // ---------------------------------------------------------------- the validation loops

  /** A SHA-256 digest stands for one series. */
  predicate OneSeriesPerDigest(bars: seq<Bar>) {
    forall i, j :: 0 <= i < |bars| && 0 <= j < |bars| && bars[i].series.digest == bars[j].series.digest ==>
      bars[i].series == bars[j].series
  }

  /** The series of the bars, by digest. */
  predicate Identifies(identities: map<Digest, Series>, bars: seq<Bar>) {
    && (forall i :: 0 <= i < |bars| ==> bars[i].series.digest in identities && identities[bars[i].series.digest] == bars[i].series)
    && (forall k :: k in identities ==> exists i :: 0 <= i < |bars| && bars[i].series.digest == k)
  }

  predicate ClosesOf(closes: map<Digest, seq<Time>>, bars: seq<Bar>) {
    && (forall i :: 0 <= i < |bars| ==> bars[i].series.digest in closes && bars[i].closeAt in closes[bars[i].series.digest])
    && (forall k :: k in closes ==> forall t: Time :: t in closes[k] ==>
          exists i :: 0 <= i < |bars| && bars[i].series.digest == k && bars[i].closeAt == t)
  }

  predicate BarEventsOf(events: seq<Event>, bars: seq<Bar>, h: Hashes) {
    multiset(events) == multiset(Map(bars, Completion(h))) + multiset(Map(bars, Closing(h))) + multiset(Map(bars, Start(h)))
  }

  lemma OneMore<T, U>(xs: seq<T>, i: nat, f: T -> U)
    requires i < |xs|
    ensures Map(xs[..i + 1], f) == Map(xs[..i], f) + [f(xs[i])]
  {
  }

  lemma DistinctGrows<T>(keys: seq<T>, key: T)
    requires Distinct(keys)
    ensures Distinct(keys + [key]) <==> key !in keys
  {
    if key in keys {
      var i :| 0 <= i < |keys| && keys[i] == key;
      assert (keys + [key])[i] == (keys + [key])[|keys|];
    }
  }

  lemma DistinctPrefix<T>(keys: seq<T>, i: nat)
    requires i <= |keys| && Distinct(keys)
    ensures Distinct(keys[..i])
  {
  }

  method AddBar(identities: map<Digest, Series>, closes: map<Digest, seq<Time>>, events: seq<Event>, bars: seq<Bar>, i: nat, h: Hashes)
    returns (identities': map<Digest, Series>, closes': map<Digest, seq<Time>>, events': seq<Event>)
    requires i < |bars| && OneSeriesPerDigest(bars)
    requires Identifies(identities, bars[..i]) && ClosesOf(closes, bars[..i]) && BarEventsOf(events, bars[..i], h)
    ensures Identifies(identities', bars[..i + 1]) && ClosesOf(closes', bars[..i + 1]) && BarEventsOf(events', bars[..i + 1], h)
  {
    hide Identifies;
    hide ClosesOf;
    hide BarEventsOf;
    var bar := bars[i];
    var key := bar.series.digest;
    identities' := identities[key := bar.series];
    closes' := closes[key := (if key in closes then closes[key] else []) + [bar.closeAt]];
    events' := events + [Completion(h)(bar), Closing(h)(bar), Start(h)(bar)];
    IdentifiesGrows(identities, bars, i);
    ClosesGrow(closes, bars, i);
    BarEventsGrow(events, bars, i, h);
  }

  lemma BarEventsGrow(events: seq<Event>, bars: seq<Bar>, i: nat, h: Hashes)
    requires i < |bars| && BarEventsOf(events, bars[..i], h)
    ensures BarEventsOf(events + [Completion(h)(bars[i]), Closing(h)(bars[i]), Start(h)(bars[i])], bars[..i + 1], h)
  {
    OneMore(bars, i, Completion(h));
    OneMore(bars, i, Closing(h));
    OneMore(bars, i, Start(h));
  }

  lemma IdentifiesGrows(identities: map<Digest, Series>, bars: seq<Bar>, i: nat)
    requires i < |bars| && OneSeriesPerDigest(bars) && Identifies(identities, bars[..i])
    ensures Identifies(identities[bars[i].series.digest := bars[i].series], bars[..i + 1])
  {
    var now := bars[..i + 1];
    assert now[i] == bars[i];
    forall k | k in identities
      ensures exists j :: 0 <= j < |now| && now[j].series.digest == k
    {
      var j :| 0 <= j < i && bars[..i][j].series.digest == k;
      assert now[j].series.digest == k;
    }
    forall j | 0 <= j < i
      ensures now[j] == bars[..i][j]
    {
    }
  }

  lemma ClosesGrow(closes: map<Digest, seq<Time>>, bars: seq<Bar>, i: nat)
    requires i < |bars| && ClosesOf(closes, bars[..i])
    ensures var key := bars[i].series.digest;
            ClosesOf(closes[key := (if key in closes then closes[key] else []) + [bars[i].closeAt]], bars[..i + 1])
  {
    var now, key := bars[..i + 1], bars[i].series.digest;
    assert now[i] == bars[i];
    forall k, t: Time | k in closes && t in closes[k]
      ensures exists j :: 0 <= j < |now| && now[j].series.digest == k && now[j].closeAt == t
    {
      var j :| 0 <= j < i && bars[..i][j].series.digest == k && bars[..i][j].closeAt == t;
      assert now[j].series.digest == k && now[j].closeAt == t;
    }
    forall j | 0 <= j < i
      ensures now[j] == bars[..i][j]
    {
    }
  }

  method CollectBars(bars: seq<Bar>, h: Hashes)
    returns (ok: bool, identities: map<Digest, Series>, closes: map<Digest, seq<Time>>, events: seq<Event>)
    requires OneSeriesPerDigest(bars)
    ensures ok <==> (forall b :: b in bars ==> ValidBar(b)) && Distinct(Map(bars, BarKey))
    ensures ok ==> Identifies(identities, bars) && ClosesOf(closes, bars) && BarEventsOf(events, bars, h)
  {
    hide ValidBar;
    hide Identifies;
    hide ClosesOf;
    hide BarEventsOf;
    ok, identities, closes, events := true, map[], map[], [];
    Nothing(h);
    var keys: set<(Digest, Time)> := {};
    for i := 0 to |bars|
      invariant Identifies(identities, bars[..i]) && ClosesOf(closes, bars[..i]) && BarEventsOf(events, bars[..i], h)
      invariant forall j :: 0 <= j < i ==> ValidBar(bars[j])
      invariant Distinct(Map(bars[..i], BarKey)) && forall k :: k in keys <==> k in Map(bars[..i], BarKey)
    {
      OneMore(bars, i, BarKey);
      DistinctGrows(Map(bars[..i], BarKey), BarKey(bars[i]));
      if !ValidBar(bars[i]) || BarKey(bars[i]) in keys {
        if Distinct(Map(bars, BarKey)) {
          DistinctPrefix(Map(bars, BarKey), i + 1);
          assert Map(bars, BarKey)[..i + 1] == Map(bars[..i + 1], BarKey);
        }
        assert bars[i] in bars;
        return false, identities, closes, events;
      }
      keys := keys + {BarKey(bars[i])};
      identities, closes, events := AddBar(identities, closes, events, bars, i, h);
    }
    assert bars[..|bars|] == bars;
  }

  lemma Nothing(h: Hashes)
    ensures Identifies(map[], []) && ClosesOf(map[], []) && BarEventsOf([], [], h)
  {
  }

  method CheckSettlement(identities: map<Digest, Series>, ghost bars: seq<Bar>, currency: string) returns (ok: bool)
    requires Identifies(identities, bars)
    ensures ok <==> forall b :: b in bars ==> Settles(b.series.instrument, currency)
  {
    hide Settles;
    var keys := identities.Keys;
    while keys != {}
      invariant keys <= identities.Keys
      invariant forall k :: k in identities && k !in keys ==> Settles(identities[k].instrument, currency)
      decreases keys
    {
      var k :| k in keys;
      if !Settles(identities[k].instrument, currency) {
        ghost var i :| 0 <= i < |bars| && bars[i].series.digest == k;
        assert bars[i] in bars;
        return false;
      }
      keys := keys - {k};
    }
    ok := true;
  }

  method AnyBy(times: seq<Time>, at: Time) returns (found: bool)
    ensures found <==> exists t: Time :: t in times && t <= at
  {
    for i := 0 to |times|
      invariant forall j :: 0 <= j < i ==> times[j] > at
    {
      if times[i] <= at {
        assert times[i] in times;
        return true;
      }
    }
    found := false;
  }

  method CheckSignals(signals: seq<Signal>, closes: map<Digest, seq<Time>>, ghost bars: seq<Bar>) returns (ok: bool, events: seq<Event>)
    requires ClosesOf(closes, bars)
    ensures ok <==> (forall s :: s in signals ==> Informed(s, bars)) && Distinct(Map(signals, SignalKey))
    ensures ok ==> events == Map(signals, SignalEvent)
  {
    hide ClosesOf;
    hide Informed;
    ok, events := true, [];
    var keys: set<(Digest, Time)> := {};
    for i := 0 to |signals|
      invariant forall j :: 0 <= j < i ==> Informed(signals[j], bars)
      invariant Distinct(Map(signals[..i], SignalKey)) && forall k :: k in keys <==> k in Map(signals[..i], SignalKey)
      invariant events == Map(signals[..i], SignalEvent)
    {
      var signal := signals[i];
      OneMore(signals, i, SignalKey);
      OneMore(signals, i, SignalEvent);
      DistinctGrows(Map(signals[..i], SignalKey), SignalKey(signal));
      var found := false;
      if signal.series.digest in closes {
        found := AnyBy(closes[signal.series.digest], signal.at);
      }
      InformedByCloses(signal, closes, bars);
      if !found || SignalKey(signal) in keys {
        if Distinct(Map(signals, SignalKey)) {
          DistinctPrefix(Map(signals, SignalKey), i + 1);
          assert Map(signals, SignalKey)[..i + 1] == Map(signals[..i + 1], SignalKey);
        }
        assert signal in signals;
        return false, events;
      }
      keys, events := keys + {SignalKey(signal)}, events + [SignalEvent(signal)];
    }
    assert signals[..|signals|] == signals;
  }

  lemma InformedByCloses(s: Signal, closes: map<Digest, seq<Time>>, bars: seq<Bar>)
    requires ClosesOf(closes, bars)
    ensures Informed(s, bars) <==> s.series.digest in closes && exists t: Time :: t in closes[s.series.digest] && t <= s.at
  {
    if Informed(s, bars) {
      var i :| 0 <= i < |bars| && bars[i].series.digest == s.series.digest && bars[i].closeAt <= s.at;
    }
    if s.series.digest in closes {
      if t: Time :| t in closes[s.series.digest] && t <= s.at {
        var i :| 0 <= i < |bars| && bars[i].series.digest == s.series.digest && bars[i].closeAt == t;
      }
    }
  }

  method KnownInstrument(instrument: Instrument, identities: map<Digest, Series>, ghost bars: seq<Bar>) returns (known: bool)
    requires Identifies(identities, bars)
    ensures known <==> exists i :: 0 <= i < |bars| && bars[i].series.instrument == instrument
  {
    var keys := identities.Keys;
    while keys != {}
      invariant keys <= identities.Keys
      invariant forall k :: k in identities && k !in keys ==> identities[k].instrument != instrument
      decreases keys
    {
      var k :| k in keys;
      if identities[k].instrument == instrument {
        ghost var i :| 0 <= i < |bars| && bars[i].series.digest == k;
        assert bars[i].series.instrument == instrument;
        return true;
      }
      keys := keys - {k};
    }
    known := false;
  }

  method CheckRates(rates: seq<FundingRate>, identities: map<Digest, Series>, ghost bars: seq<Bar>, currency: string, h: Hashes)
    returns (ok: bool, events: seq<Event>)
    requires Identifies(identities, bars)
    ensures ok <==> (forall x :: x in rates ==> ValidRate(x, bars, currency)) && Distinct(Map(rates, RateKey))
    ensures ok ==> events == Map(rates, Payday(h))
  {
    hide Identifies;
    hide Settles;
    ok, events := true, [];
    var keys: set<(Digest, Time)> := {};
    for i := 0 to |rates|
      invariant forall j :: 0 <= j < i ==> ValidRate(rates[j], bars, currency)
      invariant Distinct(Map(rates[..i], RateKey)) && forall k :: k in keys <==> k in Map(rates[..i], RateKey)
      invariant events == Map(rates[..i], Payday(h))
    {
      var rate := rates[i];
      OneMore(rates, i, RateKey);
      OneMore(rates, i, Payday(h));
      DistinctGrows(Map(rates[..i], RateKey), RateKey(rate));
      var known := KnownInstrument(rate.series.instrument, identities, bars);
      if rate.series.instrument.kind != PerpetualSwap || !Settles(rate.series.instrument, currency) || !known || RateKey(rate) in keys {
        if Distinct(Map(rates, RateKey)) {
          DistinctPrefix(Map(rates, RateKey), i + 1);
          assert Map(rates, RateKey)[..i + 1] == Map(rates[..i + 1], RateKey);
        }
        assert rate in rates;
        return false, events;
      }
      keys, events := keys + {RateKey(rate)}, events + [Payday(h)(rate)];
    }
    assert rates[..|rates|] == rates;
  }

  lemma OneKeyMore<T>(keys: seq<T>, key: T)
    ensures |set k | k in keys + [key]| == |set k | k in keys| + (if key in keys then 0 else 1)
  {
    assert (set k | k in keys + [key]) == (set k | k in keys) + {key};
  }

  /** A set holds as many keys as the list exactly when none repeats. */
  lemma {:induction false} DistinctBySize<T>(keys: seq<T>)
    ensures |set k | k in keys| <= |keys|
    ensures |keys| == |set k | k in keys| <==> Distinct(keys)
    decreases |keys|
  {
    if keys != [] {
      var front, last := keys[..|keys| - 1], keys[|keys| - 1];
      assert keys == front + [last];
      DistinctBySize(front);
      OneKeyMore(front, last);
      hide Distinct;
      if Distinct(keys) {
        DistinctPrefix(keys, |front|);
      }
      if Distinct(front) {
        DistinctGrows(front, last);
      }
    }
  }

  /** `_validate`: it accepts exactly the valid requests, and returns their events in the engine's order. */
  method Validate(r: Request, h: Hashes) returns (result: Result<seq<Event>, Error>)
    requires OneSeriesPerDigest(r.bars)
    ensures result.Success? <==> ValidRequest(r, h)
    ensures result.Success? ==> result.value == Ordering(r, h)
  {
    hide ValidBar;
    hide Settles;
    hide Informed;
    hide ValidRate;
    hide OneSeriesPerDigest;
    hide Identifies;
    hide ClosesOf;
    hide BarEventsOf;
    hide Ordering;
    hide AllEvents;
    hide Distinct;
    if r.bars == [] {
      return Failure(NoBars);
    }
    var ok, identities, closes, barEvents := CollectBars(r.bars, h);
    if !ok {
      return Failure(InvalidBar);
    }
    var settled := CheckSettlement(identities, r.bars, r.currency);
    if !settled {
      return Failure(WrongCurrency);
    }
    var informed, signalEvents := CheckSignals(r.signals, closes, r.bars);
    if !informed {
      return Failure(EarlySignal);
    }
    var grounded, rateEvents := CheckRates(r.rates, identities, r.bars, r.currency, h);
    if !grounded {
      return Failure(UnknownSeries);
    }
    var events := barEvents + signalEvents + rateEvents;
    Gathered(barEvents, r, h);
    var sorted := Sort(events, Before);
    var logical := Map(sorted, KeyOf);
    var distinct := set k | k in logical;
    DistinctBySize(logical);
    SortedKeys(events, AllEvents(r, h));
    if |logical| != |distinct| {
      return Failure(DuplicateEvent);
    }
    SameOrder(events, r, h);
    result := Success(sorted);
  }

  lemma Gathered(barEvents: seq<Event>, r: Request, h: Hashes)
    requires BarEventsOf(barEvents, r.bars, h)
    ensures multiset(barEvents + Map(r.signals, SignalEvent) + Map(r.rates, Payday(h))) == multiset(AllEvents(r, h))
  {
  }

  lemma SortedKeys(events: seq<Event>, all: seq<Event>)
    requires multiset(events) == multiset(all)
    ensures Distinct(Map(Sort(events, Before), KeyOf)) <==> Distinct(Map(all, KeyOf))
  {
    SortElements(events, Before);
    MapElements(Sort(events, Before), all, KeyOf);
    if Distinct(Map(all, KeyOf)) {
      DistinctElements(Map(all, KeyOf), Map(Sort(events, Before), KeyOf));
    }
    if Distinct(Map(Sort(events, Before), KeyOf)) {
      DistinctElements(Map(Sort(events, Before), KeyOf), Map(all, KeyOf));
    }
  }

  lemma SameOrder(events: seq<Event>, r: Request, h: Hashes)
    requires multiset(events) == multiset(AllEvents(r, h)) && Distinct(Map(AllEvents(r, h), KeyOf))
    ensures Sort(events, Before) == Ordering(r, h)
  {
    BeforeIsTotal();
    DistinctByKey(AllEvents(r, h));
    SortUnique(AllEvents(r, h), events, Before);
  }

  // ---------------------------------------------------------------- what is accepted, in full

  predicate Separates(c: char) {
    c == '-' || c == '/'
  }

  /** `quote` is what follows the last separator of the symbol. */
  ghost predicate Follows(symbol: string, quote: string) {
    && (forall i :: 0 <= i < |quote| ==> !Separates(quote[i]))
    && exists n :: 0 <= n < |symbol| && Separates(symbol[n]) && symbol[n + 1..] == quote
  }

  lemma EndsAlike(symbol: string, k: nat, quote: string)
    requires k < |symbol| && symbol[k + 1..] == quote
    ensures quote != "" ==> quote[|quote| - 1] == symbol[|symbol| - 1]
  {
  }

  lemma FollowsSeparator(front: string, last: char, quote: string)
    requires Separates(last)
    ensures Follows(front + [last], quote) <==> quote == ""
  {
    var symbol, n := front + [last], |front|;
    assert symbol[n] == last && symbol[n + 1..] == "";
    if Follows(symbol, quote) {
      var k :| 0 <= k < |symbol| && Separates(symbol[k]) && symbol[k + 1..] == quote;
      EndsAlike(symbol, k, quote);
    }
  }

  lemma FollowsMore(front: string, last: char, quote: string)
    requires !Separates(last)
    ensures Follows(front + [last], quote + [last]) <==> Follows(front, quote)
  {
    var symbol, more := front + [last], quote + [last];
    if Follows(symbol, more) {
      var k :| 0 <= k < |symbol| && Separates(symbol[k]) && symbol[k + 1..] == more;
      assert symbol[k + 1..] == front[k + 1..] + [last];
      SameFront(front[k + 1..], quote, last);
      assert Separates(front[k]);
      forall i | 0 <= i < |quote|
        ensures !Separates(quote[i])
      {
        assert more[i] == quote[i];
      }
    }
    if Follows(front, quote) {
      var k :| 0 <= k < |front| && Separates(front[k]) && front[k + 1..] == quote;
      assert symbol[k] == front[k] && symbol[k + 1..] == more;
    }
  }

  lemma SameFront(xs: string, ys: string, c: char)
    requires xs + [c] == ys + [c]
    ensures xs == ys
  {
    assert (xs + [c])[..|xs|] == xs && (ys + [c])[..|ys|] == ys;
  }

  lemma FollowsLast(front: string, last: char, quote: string)
    requires !Separates(last) && Follows(front + [last], quote)
    ensures quote != "" && quote[|quote| - 1] == last
  {
    var symbol := front + [last];
    var k :| 0 <= k < |symbol| && Separates(symbol[k]) && symbol[k + 1..] == quote;
    assert k < |front| && quote[|front| - k - 1] == last;
  }

  lemma {:induction false} QuoteLaw(symbol: string, quote: string)
    ensures QuoteAsset(symbol) == Some(quote) <==> Follows(symbol, quote)
    decreases |symbol|
  {
    hide Follows;
    if symbol == "" {
      NothingFollows(quote);
    } else {
      var front, last := symbol[..|symbol| - 1], symbol[|symbol| - 1];
      assert symbol == front + [last];
      if Separates(last) {
        FollowsSeparator(front, last, quote);
      } else if quote != "" && quote[|quote| - 1] == last {
        var rest := quote[..|quote| - 1];
        assert quote == rest + [last];
        QuoteLaw(front, rest);
        FollowsMore(front, last, rest);
        if QuoteAsset(symbol) == Some(quote) {
          SameFront(QuoteAsset(front).value, rest, last);
        }
      } else if Follows(symbol, quote) {
        FollowsLast(front, last, quote);
      }
    }
  }

  lemma NothingFollows(quote: string)
    ensures !Follows("", quote)
  {
  }

  /** Spot pairs settle in the asset they are quoted in, perpetuals in their settlement asset; nothing is asked of others. */
  ghost predicate SettlesIn(i: Instrument, currency: string) {
    match i.kind
    case SpotPair => exists quote :: Follows(i.symbol, quote) && quote != "" && Upper(quote) == currency
    case PerpetualSwap => exists asset :: i.settlement == Some(asset) && Upper(asset) == currency
    case OtherKind => true
  }

  lemma SettlesLaw(i: Instrument, currency: string)
    ensures Settles(i, currency) <==> SettlesIn(i, currency)
  {
    if i.kind == SpotPair {
      if Settles(i, currency) {
        QuoteLaw(i.symbol, QuoteAsset(i.symbol).value);
      }
      if SettlesIn(i, currency) {
        var quote :| Follows(i.symbol, quote) && quote != "" && Upper(quote) == currency;
        QuoteLaw(i.symbol, quote);
      }
      hide QuoteAsset;
      hide Upper;
    }
  }

  /** A bar the engine takes: a final one of a named provider, opening before it closes, with its prices inside its range. */
  predicate GoodBar(b: Bar) {
    && b.series.instrument.provider != "legacy" && b.final && b.openAt < b.closeAt
    && b.low <= b.open && b.open <= b.high && b.low <= b.close && b.close <= b.high && 0.0 <= b.volume
  }

  /** No two bars of a series open together or, with the same content, close together, and no two of its signals or rates
      fall together. */
  ghost predicate NoRepeats(r: Request, h: Hashes) {
    && (forall i, j :: 0 <= i < j < |r.bars| && r.bars[i].series.digest == r.bars[j].series.digest ==>
          r.bars[i].openAt != r.bars[j].openAt && (r.bars[i].closeAt != r.bars[j].closeAt || h.bar(r.bars[i]) != h.bar(r.bars[j])))
    && (forall i, j :: 0 <= i < j < |r.signals| && r.signals[i].series.digest == r.signals[j].series.digest ==>
          r.signals[i].at != r.signals[j].at)
    && (forall i, j :: 0 <= i < j < |r.rates| && r.rates[i].series.digest == r.rates[j].series.digest ==> r.rates[i].at != r.rates[j].at)
  }

  /** The keys of a priority's events are distinct exactly when those of their records are. */
  predicate PriorityIs(keys: seq<Key>, priority: nat) {
    forall i :: 0 <= i < |keys| ==> keys[i].priority == priority
  }

  predicate PriorityNot(keys: seq<Key>, priority: nat) {
    forall i :: 0 <= i < |keys| ==> keys[i].priority != priority
  }

  lemma DistinctParts(xs: seq<Key>, ys: seq<Key>, priority: nat)
    requires PriorityNot(xs, priority) && PriorityIs(ys, priority)
    ensures Distinct(xs + ys) <==> Distinct(xs) && Distinct(ys)
  {
    if Distinct(xs + ys) {
      forall i, j | 0 <= i < j < |xs|
        ensures xs[i] != xs[j]
      {
        assert (xs + ys)[i] != (xs + ys)[j];
      }
      forall i, j | 0 <= i < j < |ys|
        ensures ys[i] != ys[j]
      {
        assert (xs + ys)[|xs| + i] != (xs + ys)[|xs| + j];
      }
    }
  }

  lemma EventKeys(r: Request, h: Hashes)
    ensures Distinct(Map(AllEvents(r, h), KeyOf)) <==>
              Distinct(Map(Map(r.bars, Completion(h)), KeyOf)) && Distinct(Map(Map(r.bars, Closing(h)), KeyOf))
              && Distinct(Map(Map(r.bars, Start(h)), KeyOf)) && Distinct(Map(Map(r.signals, SignalEvent), KeyOf))
              && Distinct(Map(Map(r.rates, Payday(h)), KeyOf))
  {
    var c, m, o := Map(Map(r.bars, Completion(h)), KeyOf), Map(Map(r.bars, Closing(h)), KeyOf), Map(Map(r.bars, Start(h)), KeyOf);
    var s, f := Map(Map(r.signals, SignalEvent), KeyOf), Map(Map(r.rates, Payday(h)), KeyOf);
    assert Map(AllEvents(r, h), KeyOf) == c + m + o + s + f;
    assert PriorityIs(c, 1) && PriorityIs(m, 2) && PriorityIs(o, 5) && PriorityIs(s, 4) && PriorityIs(f, 3);
    DistinctParts(c, m, 2);
    DistinctParts(c + m, o, 5);
    DistinctParts(c + m + o, s, 4);
    DistinctParts(c + m + o + s, f, 3);
    hide Distinct;
  }

  lemma NoRepeatsLaw(r: Request, h: Hashes)
    ensures NoRepeats(r, h) <==>
              && Distinct(Map(r.bars, BarKey)) && Distinct(Map(r.signals, SignalKey)) && Distinct(Map(r.rates, RateKey))
              && Distinct(Map(AllEvents(r, h), KeyOf))
  {
    EventKeys(r, h);
    hide AllEvents;
  }

  /** What the engine accepts, in full. */
  lemma AcceptedLaw(r: Request, h: Hashes)
    ensures ValidRequest(r, h) <==>
              && r.bars != [] && NoRepeats(r, h)
              && (forall b :: b in r.bars ==> GoodBar(b) && SettlesIn(b.series.instrument, r.currency))
              && (forall s :: s in r.signals ==> exists b :: b in r.bars && b.series.digest == s.series.digest && b.closeAt <= s.at)
              && (forall x :: x in r.rates ==>
                    && x.series.instrument.kind == PerpetualSwap && SettlesIn(x.series.instrument, r.currency)
                    && exists b :: b in r.bars && b.series.instrument == x.series.instrument)
  {
    NoRepeatsLaw(r, h);
    forall i: Instrument
      ensures Settles(i, r.currency) <==> SettlesIn(i, r.currency)
    {
      SettlesLaw(i, r.currency);
    }
    forall b
      ensures ValidBar(b) <==> GoodBar(b)
    {
    }
    forall s
      ensures Informed(s, r.bars) <==> exists b :: b in r.bars && b.series.digest == s.series.digest && b.closeAt <= s.at
    {
      InformedLaw(s, r.bars);
    }
    forall x
      ensures ValidRate(x, r.bars, r.currency) <==>
                && x.series.instrument.kind == PerpetualSwap && SettlesIn(x.series.instrument, r.currency)
                && exists b :: b in r.bars && b.series.instrument == x.series.instrument
    {
      KnownLaw(x, r.bars);
      hide Settles;
      hide SettlesIn;
    }
    hide Settles;
    hide SettlesIn;
    hide ValidBar;
    hide GoodBar;
    hide Informed;
    hide ValidRate;
    hide NoRepeats;
    hide Distinct;
    hide AllEvents;
  }

  lemma InformedLaw(s: Signal, bars: seq<Bar>)
    ensures Informed(s, bars) <==> exists b :: b in bars && b.series.digest == s.series.digest && b.closeAt <= s.at
  {
    if b :| b in bars && b.series.digest == s.series.digest && b.closeAt <= s.at {
      var i :| 0 <= i < |bars| && bars[i] == b;
    }
    if i :| 0 <= i < |bars| && bars[i].series.digest == s.series.digest && bars[i].closeAt <= s.at {
      assert bars[i] in bars;
    }
  }

  lemma KnownLaw(x: FundingRate, bars: seq<Bar>)
    ensures (exists i :: 0 <= i < |bars| && bars[i].series.instrument == x.series.instrument)
            <==> exists b :: b in bars && b.series.instrument == x.series.instrument
  {
    if b :| b in bars && b.series.instrument == x.series.instrument {
      var i :| 0 <= i < |bars| && bars[i] == b;
    }
    if i :| 0 <= i < |bars| && bars[i].series.instrument == x.series.instrument {
      assert bars[i] in bars;
    }
  }
}
