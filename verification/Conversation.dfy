/** The conversation of a run: what the engine tells its broker and what it makes of the answers, from the first event to
    the last (`run` in backtesting/engine.py).  A broker that keeps a log of its calls and answers is watched in the place
    of any broker. */
module Conversation {
  import opened Results
  import opened Models
  import opened Accounting
  import opened Events
  import opened Backtest
  import opened EngineLaws
  import Metrics
  import Positions

  datatype Call = ToSubmit(intent: Intent, decision: Decision) | ToCancel(id: Uuid, at: Time) | ToComplete(series: Series, at: Time, prices: Prices)
                | ToOpen(series: Series, at: Time, open: real) | ToExpire(at: Time)

  datatype Entry = Entry(call: Call, result: BrokerResult)

  type Watched<B> = (B, seq<Entry>)

  function Logged<B>(b: Watched<B>, call: Call, reply: Reply<B>): Reply<Watched<B>> {
    if reply.Failure? then Failure(reply.error)
    else Success(((reply.value.0, b.1 + [Entry(call, reply.value.1)]), reply.value.1))
  }

  /** The broker `v`, answering as it does and keeping a log. */
  function Watch<B>(v: Venue<B>): Venue<Watched<B>> {
    Venue(
      (v.initial, []),
      (b: Watched<B>, intent: Intent, decision: Decision) => Logged(b, ToSubmit(intent, decision), v.submit(b.0, intent, decision)),
      (b: Watched<B>, id: Uuid, at: Time) => Logged(b, ToCancel(id, at), v.cancel(b.0, id, at)),
      (b: Watched<B>, key: Option<Digest>) => v.active(b.0, key),
      (b: Watched<B>, series: Series, at: Time, p: Prices, check: RiskCheck) =>
        Logged(b, ToComplete(series, at, p), v.processCompletedBar(b.0, series, at, p, check)),
      (b: Watched<B>, series: Series, at: Time, open: real, check: RiskCheck) =>
        Logged(b, ToOpen(series, at, open), v.processBarOpen(b.0, series, at, open, check)),
      (b: Watched<B>, at: Time) => Logged(b, ToExpire(at), v.expire(b.0, at)))
  }

  // ---------------------------------------------------------------- reading a log

  function FillsIn(log: seq<Entry>): seq<GoodFill> {
    if log == [] then [] else FillsIn(log[..|log| - 1]) + log[|log| - 1].result.fills
  }

  function UpdatesIn(log: seq<Entry>): seq<Order> {
    if log == [] then [] else UpdatesIn(log[..|log| - 1]) + log[|log| - 1].result.updates
  }

  /** The intents submitted, each with an accepting decision. */
  function SubmittedIn(log: seq<Entry>): seq<Intent> {
    if log == [] then []
    else
      var call := log[|log| - 1].call;
      SubmittedIn(log[..|log| - 1]) + (if call.ToSubmit? && call.decision.accepted then [call.intent] else [])
  }

  predicate AboutBars(call: Call) {
    call.ToComplete? || call.ToOpen?
  }

  /** What is said about bars. */
  function BarCallsIn(log: seq<Entry>): seq<Call> {
    if log == [] then []
    else
      var call := log[|log| - 1].call;
      BarCallsIn(log[..|log| - 1]) + (if AboutBars(call) then [call] else [])
  }

  /** What the events of a run have to say about bars: each whole bar when it completes, and each open when it opens. */
  function BarCallsOf(met: seq<Event>): seq<Call> {
    if met == [] then []
    else
      BarCallsOf(met[..|met| - 1])
      + (match met[|met| - 1].payload
         case Completed(b) => [ToComplete(b.series, b.closeAt, Prices(b.open, b.high, b.low, b.close))]
         case Opening(b) => [ToOpen(b.series, b.openAt, b.open)]
         case _ => [])
  }

  function SubmittedOf(intents: seq<Intent>): seq<Intent> {
    if intents == [] then []
    else
      var last := intents[|intents| - 1];
      SubmittedOf(intents[..|intents| - 1]) + (if last.status == Submitted then [last] else [])
  }

  function Traded(fills: seq<GoodFill>, k: Digest): real {
    if fills == [] then 0.0
    else
      var f := fills[|fills| - 1];
      Traded(fills[..|fills| - 1], k) + (if f.series.digest != k then 0.0 else if f.side == Buy then f.quantity else -f.quantity)
  }

  lemma LogsJoin(xs: seq<Entry>, ys: seq<Entry>)
    ensures FillsIn(xs + ys) == FillsIn(xs) + FillsIn(ys) && UpdatesIn(xs + ys) == UpdatesIn(xs) + UpdatesIn(ys)
    ensures SubmittedIn(xs + ys) == SubmittedIn(xs) + SubmittedIn(ys) && BarCallsIn(xs + ys) == BarCallsIn(xs) + BarCallsIn(ys)
  {
    FillsInJoin(xs, ys);
    UpdatesInJoin(xs, ys);
    SubmittedInJoin(xs, ys);
    BarCallsJoin(xs, ys);
  }

  lemma {:induction false} FillsInJoin(xs: seq<Entry>, ys: seq<Entry>)
    ensures FillsIn(xs + ys) == FillsIn(xs) + FillsIn(ys)
    decreases |ys|
  {
    if ys == [] {
      assert xs + ys == xs;
    } else {
      var front, part := ys[..|ys| - 1], ys[|ys| - 1].result.fills;
      FillsInJoin(xs, front);
      assert (xs + ys)[..|xs + ys| - 1] == xs + front;
      assert FillsIn(xs + ys) == FillsIn(xs + front) + part;
      assert FillsIn(ys) == FillsIn(front) + part;
      hide FillsIn;
      assert FillsIn(xs) + (FillsIn(front) + part) == FillsIn(xs) + FillsIn(front) + part;
    }
  }

  lemma {:induction false} UpdatesInJoin(xs: seq<Entry>, ys: seq<Entry>)
    ensures UpdatesIn(xs + ys) == UpdatesIn(xs) + UpdatesIn(ys)
    decreases |ys|
  {
    if ys == [] {
      assert xs + ys == xs;
    } else {
      var front, part := ys[..|ys| - 1], ys[|ys| - 1].result.updates;
      UpdatesInJoin(xs, front);
      assert (xs + ys)[..|xs + ys| - 1] == xs + front;
      assert UpdatesIn(xs + ys) == UpdatesIn(xs + front) + part;
      assert UpdatesIn(ys) == UpdatesIn(front) + part;
      hide UpdatesIn;
      assert UpdatesIn(xs) + (UpdatesIn(front) + part) == UpdatesIn(xs) + UpdatesIn(front) + part;
    }
  }

  lemma {:induction false} SubmittedInJoin(xs: seq<Entry>, ys: seq<Entry>)
    ensures SubmittedIn(xs + ys) == SubmittedIn(xs) + SubmittedIn(ys)
    decreases |ys|
  {
    if ys == [] {
      assert xs + ys == xs;
    } else {
      SubmittedInJoin(xs, ys[..|ys| - 1]);
      assert (xs + ys)[..|xs + ys| - 1] == xs + ys[..|ys| - 1];
    }
  }

  lemma {:induction false} BarCallsJoin(xs: seq<Entry>, ys: seq<Entry>)
    ensures BarCallsIn(xs + ys) == BarCallsIn(xs) + BarCallsIn(ys)
    decreases |ys|
  {
    if ys == [] {
      assert xs + ys == xs;
    } else {
      BarCallsJoin(xs, ys[..|ys| - 1]);
      assert (xs + ys)[..|xs + ys| - 1] == xs + ys[..|ys| - 1];
    }
  }

  lemma {:induction false} SubmittedJoin(xs: seq<Intent>, ys: seq<Intent>)
    ensures SubmittedOf(xs + ys) == SubmittedOf(xs) + SubmittedOf(ys)
    decreases |ys|
  {
    if ys == [] {
      assert xs + ys == xs;
    } else {
      SubmittedJoin(xs, ys[..|ys| - 1]);
      assert (xs + ys)[..|xs + ys| - 1] == xs + ys[..|ys| - 1];
    }
  }

  lemma {:induction false} TradedJoin(xs: seq<GoodFill>, ys: seq<GoodFill>, k: Digest)
    ensures Traded(xs + ys, k) == Traded(xs, k) + Traded(ys, k)
    decreases |ys|
  {
    if ys == [] {
      assert xs + ys == xs;
    } else {
      TradedJoin(xs, ys[..|ys| - 1], k);
      assert (xs + ys)[..|xs + ys| - 1] == xs + ys[..|ys| - 1];
    }
  }

  lemma {:induction false} LastOfJoin(xs: seq<Order>, ys: seq<Order>, id: Uuid)
    ensures LastOf(xs + ys, id) == if LastOf(ys, id).Some? then LastOf(ys, id) else LastOf(xs, id)
    decreases |ys|
  {
    if ys == [] {
      assert xs + ys == xs;
    } else {
      LastOfJoin(xs, ys[..|ys| - 1], id);
      assert (xs + ys)[..|xs + ys| - 1] == xs + ys[..|ys| - 1];
    }
  }

  // ---------------------------------------------------------------- positions

  lemma FillHeld(b: KeyedBook, fill: GoodFill, sequence: nat, k: Digest)
    requires AfterFill(b, fill, sequence).Success?
    ensures HeldIn(AfterFill(b, fill, sequence).value, k) == HeldIn(b, k) + Traded([fill], k)
  {
    hide Positions.ApplyFillToPosition;
    hide Positions.Shape;
    hide Keyed;
    PositionForLaw(b, fill.series, fill.mode, fill.filledAt);
    Positions.ApplyFillLaw(PositionFor(b, fill.series, fill.mode, fill.filledAt), fill);
    assert [fill][..0] == [];
  }

  lemma {:induction false} BookFillsHeld(b: KeyedBook, fills: seq<GoodFill>, n: nat, k: Digest)
    requires BookFills(b, fills, n).Success?
    ensures HeldIn(BookFills(b, fills, n).value, k) == HeldIn(b, k) + Traded(fills, k)
    decreases |fills|
  {
    hide AfterFill;
    hide HeldIn;
    if fills != [] {
      var front, last := fills[..|fills| - 1], fills[|fills| - 1];
      BookFillsHeld(b, front, n, k);
      FillHeld(BookFills(b, front, n).value, last, n + 2 * |front| + 1, k);
      assert fills == front + [last];
      TradedJoin(front, [last], k);
      hide Traded;
    }
  }

  // ---------------------------------------------------------------- what one stretch of a run says and records

  /** From `s` to `t` the log has grown by `part` and the intents by `made`, and the state holds what was answered: every
      fill and the last word on every order, each submission for an accepted intent, and positions moved by the fills. */
  ghost predicate Grew<B>(s: State<Watched<B>>, t: State<Watched<B>>, part: seq<Entry>, made: seq<Intent>) {
    GrewLists(s, t, part, made) && GrewOrders(s, t, UpdatesIn(part)) && GrewHeld(s, t, FillsIn(part))
  }

  ghost predicate GrewLists<B>(s: State<Watched<B>>, t: State<Watched<B>>, part: seq<Entry>, made: seq<Intent>) {
    && t.broker.1 == s.broker.1 + part && t.intents == s.intents + made
    && t.fills == s.fills + FillsIn(part)
    && SubmittedIn(part) == SubmittedOf(made)
  }

  ghost predicate GrewOrders<B>(s: State<B>, t: State<B>, updates: seq<Order>) {
    forall id: Uuid :: Lookup(t.orders, id) == if LastOf(updates, id).Some? then LastOf(updates, id) else Lookup(s.orders, id)
  }

  ghost predicate GrewHeld<B>(s: State<B>, t: State<B>, fills: seq<GoodFill>) {
    forall k :: HeldIn(t.book, k) == HeldIn(s.book, k) + Traded(fills, k)
  }

  lemma OrdersGrewOn<B>(s: State<B>, t: State<B>, u: State<B>, xs: seq<Order>, ys: seq<Order>)
    requires GrewOrders(s, t, xs) && GrewOrders(t, u, ys)
    ensures GrewOrders(s, u, xs + ys)
  {
    forall id: Uuid
      ensures Lookup(u.orders, id) == if LastOf(xs + ys, id).Some? then LastOf(xs + ys, id) else Lookup(s.orders, id)
    {
      LastOfJoin(xs, ys, id);
    }
    hide LastOf;
    hide Lookup;
  }

  lemma HeldGrewOn<B>(s: State<B>, t: State<B>, u: State<B>, xs: seq<GoodFill>, ys: seq<GoodFill>)
    requires GrewHeld(s, t, xs) && GrewHeld(t, u, ys)
    ensures GrewHeld(s, u, xs + ys)
  {
    forall k
      ensures HeldIn(u.book, k) == HeldIn(s.book, k) + Traded(xs + ys, k)
    {
      TradedJoin(xs, ys, k);
    }
    hide Traded;
    hide HeldIn;
  }

  lemma ListsGrewOn<B>(s: State<Watched<B>>, t: State<Watched<B>>, u: State<Watched<B>>, part: seq<Entry>, more: seq<Entry>, made: seq<Intent>,
                       others: seq<Intent>)
    requires GrewLists(s, t, part, made) && GrewLists(t, u, more, others)
    ensures GrewLists(s, u, part + more, made + others)
  {
    LogsJoin(part, more);
    SubmittedJoin(made, others);
    hide FillsIn;
    hide UpdatesIn;
    hide SubmittedIn;
    hide SubmittedOf;
    hide BarCallsIn;
    assert s.broker.1 + (part + more) == s.broker.1 + part + more;
    assert s.intents + (made + others) == s.intents + made + others;
    assert s.fills + (FillsIn(part) + FillsIn(more)) == s.fills + FillsIn(part) + FillsIn(more);
  }

  lemma GrewOn<B>(s: State<Watched<B>>, t: State<Watched<B>>, u: State<Watched<B>>, part: seq<Entry>, more: seq<Entry>, made: seq<Intent>,
                  others: seq<Intent>)
    requires Grew(s, t, part, made) && Grew(t, u, more, others)
    ensures Grew(s, u, part + more, made + others)
  {
    ListsGrewOn(s, t, u, part, more, made, others);
    OrdersGrewOn(s, t, u, UpdatesIn(part), UpdatesIn(more));
    HeldGrewOn(s, t, u, FillsIn(part), FillsIn(more));
    LogsJoin(part, more);
    hide GrewLists;
    hide GrewOrders;
    hide GrewHeld;
  }

  lemma GrewQuietly<B>(s: State<Watched<B>>, t: State<Watched<B>>, u: State<Watched<B>>, part: seq<Entry>, more: seq<Entry>)
    requires Grew(s, t, part, []) && Grew(t, u, more, [])
    ensures Grew(s, u, part + more, [])
  {
    GrewOn(s, t, u, part, more, [], []);
    var none: seq<Intent> := [];
    assert none + none == none;
    hide Grew;
  }

  lemma GrewNot<B>(s: State<Watched<B>>, t: State<Watched<B>>)
    requires t.broker == s.broker && t.intents == s.intents && t.fills == s.fills && t.orders == s.orders
    requires forall k :: HeldIn(t.book, k) == HeldIn(s.book, k)
    ensures Grew(s, t, [], [])
  {
    assert s.broker.1 + [] == s.broker.1 && s.intents + [] == s.intents && s.fills + [] == s.fills;
  }

  lemma OneEntry(e: Entry)
    ensures FillsIn([e]) == e.result.fills && UpdatesIn([e]) == e.result.updates
    ensures SubmittedIn([e]) == if e.call.ToSubmit? && e.call.decision.accepted then [e.call.intent] else []
    ensures BarCallsIn([e]) == if AboutBars(e.call) then [e.call] else []
  {
    var log := [e];
    assert log[..|log| - 1] == [];
    assert FillsIn(log) == FillsIn([]) + e.result.fills == e.result.fills;
    assert UpdatesIn(log) == UpdatesIn([]) + e.result.updates == e.result.updates;
  }

  /** One answer, to a call that submits nothing. */
  lemma AnswerGrew<B>(s: State<Watched<B>>, call: Call, reply: Reply<B>, at: Time, priority: nat, t: State<Watched<B>>)
    requires !call.ToSubmit? && Answered(s, Logged(s.broker, call, reply), at, priority, Success(t))
    ensures reply.Success? && Grew(s, t, [Entry(call, reply.value.1)], []) && t.broker.0 == reply.value.0
  {
    AnswerHeard(s, call, reply, at, priority, t);
    hide Answered;
    hide Logged;
    hide GrewOrders;
    hide GrewHeld;
    OneEntry(Entry(call, reply.value.1));
    hide FillsIn;
    hide UpdatesIn;
    hide SubmittedIn;
    assert s.intents + [] == s.intents;
  }

  lemma AnswerHeard<B>(s: State<Watched<B>>, call: Call, reply: Reply<B>, at: Time, priority: nat, t: State<Watched<B>>)
    requires Answered(s, Logged(s.broker, call, reply), at, priority, Success(t))
    ensures reply.Success? && t.broker == (reply.value.0, s.broker.1 + [Entry(call, reply.value.1)])
    ensures var result := reply.value.1;
            && t.fills == s.fills + result.fills && t.intents == s.intents
            && GrewOrders(s, t, result.updates) && GrewHeld(s, t, result.fills)
  {
    hide BookFills;
    hide LastOf;
    hide Lookup;
    hide RowsOf;
    hide HeldIn;
    hide Traded;
    var result := reply.value.1;
    FillsGrewHeld(s, t, result.fills, |s.audit| + |result.decisions| + |result.updates|);
    hide GrewHeld;
  }

  lemma FillsGrewHeld<B>(s: State<B>, t: State<B>, fills: seq<GoodFill>, n: nat)
    requires BookFills(s.book, fills, n) == Success(t.book)
    ensures GrewHeld(s, t, fills)
  {
    forall k
      ensures HeldIn(t.book, k) == HeldIn(s.book, k) + Traded(fills, k)
    {
      BookFillsHeld(s.book, fills, n, k);
    }
    hide BookFills;
    hide HeldIn;
    hide Traded;
  }

  // ---------------------------------------------------------------- what one event says

  /** What is said on meeting an event: a whole bar when it completes, its open when it opens, and on a signal a cancel for
      each active order of its series, then its intent if the guard has accepted it. */
  ghost predicate Says<B>(v: Venue<B>, s: State<Watched<B>>, e: Event, part: seq<Entry>, made: seq<Intent>) {
    match e.payload
    case Completed(b) => |part| == 1 && made == [] && part[0].call == ToComplete(b.series, b.closeAt, Prices(b.open, b.high, b.low, b.close))
    case Opening(b) => |part| == 1 && made == [] && part[0].call == ToOpen(b.series, b.openAt, b.open)
    case ClosingMark(_) => part == [] && made == []
    case Funded(_) => part == [] && made == []
    case Signalled(signal) =>
      var active := v.active(s.broker.0, Some(signal.series.digest));
      && |made| <= 1 && |active| <= |part|
      && (forall i :: 0 <= i < |active| ==> part[i].call == ToCancel(active[i].id, signal.at))
      && (|made| == 1 ==> Carries(made[0], signal))
      && (if |made| == 1 && made[0].status == Submitted then |part| == |active| + 1 && Submits(part[|active|].call, made[0]) else |part| == |active|)
  }

  predicate Carries(intent: Intent, signal: Signal) {
    && intent.signal == signal.digest && intent.series == signal.series && intent.at == signal.at
    && intent.status in {Submitted, Blocked}
  }

  predicate Submits(call: Call, intent: Intent) {
    call.ToSubmit? && call.intent == intent && call.decision.accepted
  }

  lemma CompletedSays<B>(g: Engine<Watched<B>>, v: Venue<B>, s: State<Watched<B>>, at: Time, b: Bar, t: State<Watched<B>>)
    returns (part: seq<Entry>)
    requires g.venue == Watch(v) && OnCompleted(g, s, at, b) == Success(t)
    ensures Grew(s, t, part, []) && |part| == 1 && part[0].call == ToComplete(b.series, at, Prices(b.open, b.high, b.low, b.close))
  {
    hide Grew;
    hide Logged;
    hide Answered;
    hide OnCompleted;
    var check := CompletedLaw(g, s, at, b);
    var u := Record(s, BarCompleted, at, 1, Some(b.series.digest));
    var p := Prices(b.open, b.high, b.low, b.close);
    var call, reply := ToComplete(b.series, at, p), v.processCompletedBar(s.broker.0, b.series, at, p, check);
    GrewNot(s, u);
    AnswerGrew(u, call, reply, at, 1, t);
    part := [Entry(call, reply.value.1)];
    GrewQuietly(s, u, t, [], part);
    assert [] + part == part;
  }

  lemma MarkSays<B>(s: State<Watched<B>>, at: Time, series: Series, price: real, source: MarkSource, t: State<Watched<B>>)
    requires OnMark(s, at, series, price, source) == Success(t)
    ensures Grew(s, t, [], []) && t.broker == s.broker
  {
    hide Grew;
    hide OnMark;
    MarkLaw(s, at, series, price, source);
    GrewNot(s, t);
  }

  lemma OpenSays<B>(g: Engine<Watched<B>>, v: Venue<B>, s: State<Watched<B>>, at: Time, b: Bar, t: State<Watched<B>>)
    returns (part: seq<Entry>)
    requires g.venue == Watch(v) && OnOpen(g, s, at, b.series, b.open) == Success(t)
    ensures Grew(s, t, part, []) && |part| == 1 && part[0].call == ToOpen(b.series, at, b.open)
  {
    hide Grew;
    hide Logged;
    hide Answered;
    hide OnOpen;
    hide OnMark;
    var check := OpenLaw(g, s, at, b.series, b.open);
    var u := OnMark(s, at, b.series, b.open, BarOpen).value;
    MarkSays(s, at, b.series, b.open, BarOpen, u);
    var call, reply := ToOpen(b.series, at, b.open), v.processBarOpen(s.broker.0, b.series, at, b.open, check);
    AnswerGrew(u, call, reply, at, 5, t);
    part := [Entry(call, reply.value.1)];
    GrewQuietly(s, u, t, [], part);
    assert [] + part == part;
  }

  lemma FundingSays<B>(g: Engine<Watched<B>>, s: State<Watched<B>>, at: Time, rate: FundingRate, t: State<Watched<B>>)
    requires OnFunding(g, s, at, rate) == Success(t)
    ensures Grew(s, t, [], [])
  {
    hide Grew;
    hide OnFunding;
    var keys := OnFundingLaw(g, s, at, rate);
    hide PaymentsOn;
    GrewNot(s, t);
  }

  lemma {:induction false} CancelsSay<B>(g: Engine<Watched<B>>, v: Venue<B>, s: State<Watched<B>>, at: Time, orders: seq<Order>, t: State<Watched<B>>)
    returns (part: seq<Entry>)
    requires g.venue == Watch(v) && CancelAll(g, s, at, orders) == Success(t)
    ensures Grew(s, t, part, []) && |part| == |orders| && forall i :: 0 <= i < |orders| ==> part[i].call == ToCancel(orders[i].id, at)
    decreases |orders|
  {
    hide Grew;
    hide Logged;
    hide Answered;
    hide Handle;
    if orders == [] {
      GrewNot(s, t);
      part := [];
    } else {
      var front, last := orders[..|orders| - 1], orders[|orders| - 1];
      var u := CancelAll(g, s, at, front).value;
      var early := CancelsSay(g, v, s, at, front, u);
      var call, reply := ToCancel(last.id, at), v.cancel(u.broker.0, last.id, at);
      HandleLaw(u, g.venue.cancel(u.broker, last.id, at), at, 4);
      AnswerGrew(u, call, reply, at, 4, t);
      part := early + [Entry(call, reply.value.1)];
      GrewQuietly(s, u, t, early, [Entry(call, reply.value.1)]);
    }
  }

  lemma RaisedSays<B>(g: Engine<Watched<B>>, v: Venue<B>, u: State<Watched<B>>, signal: Signal, t: State<Watched<B>>)
    returns (part: seq<Entry>, made: seq<Intent>)
    requires g.venue == Watch(v) && Raised(g, u, signal.at, signal, Success(t))
    ensures Grew(u, t, part, made) && |made| <= 1 && (|made| == 1 ==> Carries(made[0], signal))
    ensures if |made| == 1 && made[0].status == Submitted then |part| == 1 && Submits(part[0].call, made[0]) else part == []
  {
    hide Grew;
    hide Logged;
    hide Answered;
    hide ValidIntent;
    hide Decided;
    if t == Record(u, NoActionTaken, signal.at, 4, Some(signal.series.digest)) {
      GrewNot(u, t);
      part, made := [], [];
    } else {
      var intent: Intent :| Answers(intent, g.config, signal, signal.at, u.book) && ValidIntent(intent)
                            && exists decision: Decision :: Decided(g, u, signal.at, intent, decision) && Placed(g, u, signal.at, intent, decision, Success(t));
      var decision: Decision :| Decided(g, u, signal.at, intent, decision) && Placed(g, u, signal.at, intent, decision, Success(t));
      made := [intent];
      part := PlacedSays(g, v, u, signal.at, intent, decision, t);
    }
  }

  lemma PlacedSays<B>(g: Engine<Watched<B>>, v: Venue<B>, u: State<Watched<B>>, at: Time, intent: Intent, decision: Decision, t: State<Watched<B>>)
    returns (part: seq<Entry>)
    requires g.venue == Watch(v) && Placed(g, u, at, intent, decision, Success(t))
    ensures Grew(u, t, part, [intent])
    ensures if intent.status == Submitted then |part| == 1 && Submits(part[0].call, intent) else part == []
  {
    hide Logged;
    hide Answered;
    var w := Noted(u, at, intent, decision);
    assert [intent][..0] == [];
    assert SubmittedOf([intent]) == if intent.status == Submitted then [intent] else [];
    assert forall k :: Traded(FillsIn([]), k) == 0.0;
    assert forall id: Uuid :: LastOf(UpdatesIn([]), id) == None;
    part := [];
    if decision.accepted {
      var call, reply := ToSubmit(intent, decision), v.submit(u.broker.0, intent, decision);
      AnswerHeard(w, call, reply, at, 4, t);
      OneEntry(Entry(call, reply.value.1));
      part := [Entry(call, reply.value.1)];
    } else {
      assert t == w;
      assert u.broker.1 + [] == u.broker.1 && u.fills + [] == u.fills;
    }
    hide SubmittedOf;
    hide HeldIn;
    hide Traded;
    hide LastOf;
    hide Lookup;
  }

  lemma SignalSays<B>(g: Engine<Watched<B>>, v: Venue<B>, s: State<Watched<B>>, e: Event, t: State<Watched<B>>)
    returns (part: seq<Entry>, made: seq<Intent>)
    requires g.venue == Watch(v) && e.payload.Signalled? && e.at == e.payload.signal.at && OnSignal(g, s, e.at, e.payload.signal) == Success(t)
    ensures Grew(s, t, part, made) && Says(v, s, e, part, made)
  {
    hide Grew;
    hide OnSignal;
    hide CancelAll;
    hide Raised;
    var signal := e.payload.signal;
    var key := Some(signal.series.digest);
    SignalLaw(g, s, e.at, signal);
    var r := Record(s, SignalMet, e.at, 4, key);
    var active := v.active(s.broker.0, key);
    assert g.venue.active(s.broker, key) == active;
    var u := CancelAll(g, r, e.at, active).value;
    GrewNot(s, r);
    var early := CancelsSay(g, v, r, e.at, active, u);
    GrewQuietly(s, r, u, [], early);
    assert [] + early == early;
    var late, intents := RaisedSays(g, v, u, signal, t);
    GrewOn(s, u, t, early, late, [], intents);
    part, made := early + late, intents;
    assert [] + intents == made;
  }

  lemma StepSays<B>(g: Engine<Watched<B>>, v: Venue<B>, s: State<Watched<B>>, e: Event, t: State<Watched<B>>)
    returns (part: seq<Entry>, made: seq<Intent>)
    requires g.venue == Watch(v) && WellMade(e) && Step(g, s, e) == Success(t)
    ensures Grew(s, t, part, made) && Says(v, s, e, part, made)
  {
    hide Grew;
    hide OnCompleted;
    hide OnMark;
    hide OnFunding;
    hide OnSignal;
    hide OnOpen;
    hide Watch;
    part, made := [], [];
    match e.payload
    case Completed(b) => part := CompletedSays(g, v, s, e.at, b, t);
    case ClosingMark(b) => MarkSays(s, e.at, b.series, b.close, BarClose, t);
    case Funded(rate) => FundingSays(g, s, e.at, rate, t);
    case Signalled(signal) => part, made := SignalSays(g, v, s, e, t);
    case Opening(b) => part := OpenSays(g, v, s, e.at, b, t);
  }

  // ---------------------------------------------------------------- a whole run

  /** What a run's state holds is what its broker has answered, and what the broker has been told about bars is what the
      events had to say. */
  ghost predicate Recounts<B>(s: State<Watched<B>>, met: seq<Event>) {
    var log := s.broker.1;
    && s.fills == FillsIn(log) && (forall id: Uuid :: Lookup(s.orders, id) == LastOf(UpdatesIn(log), id))
    && SubmittedOf(s.intents) == SubmittedIn(log)
    && BarCallsIn(log) == BarCallsOf(met)
    && forall k :: HeldIn(s.book, k) == Traded(s.fills, k)
  }

  lemma {:induction false} NoBarCalls(log: seq<Entry>)
    requires forall i :: 0 <= i < |log| ==> !AboutBars(log[i].call)
    ensures BarCallsIn(log) == []
  {
    if log != [] {
      NoBarCalls(log[..|log| - 1]);
    }
  }

  lemma BarCallsSaid<B>(v: Venue<B>, s: State<Watched<B>>, e: Event, part: seq<Entry>, made: seq<Intent>)
    requires Says(v, s, e, part, made)
    ensures BarCallsIn(part) == BarCallsOf([e])
  {
    assert [e][..0] == [];
    if |part| == 1 {
      OneEntry(part[0]);
      assert part == [part[0]];
    }
    match e.payload
    case Completed(b) =>
    case Opening(b) =>
    case ClosingMark(b) =>
    case Funded(rate) =>
    case Signalled(signal) =>
      var n := |v.active(s.broker.0, Some(signal.series.digest))|;
      forall i | 0 <= i < |part|
        ensures !AboutBars(part[i].call)
      {
        assert i < n || i == n;
      }
      NoBarCalls(part);
  }

  lemma {:induction false} BarCallsOfMore(met: seq<Event>, e: Event)
    ensures BarCallsOf(met + [e]) == BarCallsOf(met) + BarCallsOf([e])
  {
    assert (met + [e])[..|met|] == met && [e][..0] == [];
  }

  lemma RecountsOn<B>(s: State<Watched<B>>, t: State<Watched<B>>, met: seq<Event>, e: Event, part: seq<Entry>, made: seq<Intent>)
    requires Recounts(s, met) && Grew(s, t, part, made) && BarCallsIn(part) == BarCallsOf([e])
    ensures Recounts(t, met + [e])
  {
    GrewRecounts(s, t, met, part, made);
    BarCallsOfMore(met, e);
    hide Grew;
    hide BarCallsOf;
    hide BarCallsIn;
    hide FillsIn;
    hide UpdatesIn;
    hide SubmittedIn;
    hide SubmittedOf;
    hide LastOf;
    hide Lookup;
    hide HeldIn;
    hide Traded;
  }

  lemma GrewRecounts<B>(s: State<Watched<B>>, t: State<Watched<B>>, met: seq<Event>, part: seq<Entry>, made: seq<Intent>)
    requires Recounts(s, met) && Grew(s, t, part, made)
    ensures t.fills == FillsIn(t.broker.1) && (forall id: Uuid :: Lookup(t.orders, id) == LastOf(UpdatesIn(t.broker.1), id))
    ensures SubmittedOf(t.intents) == SubmittedIn(t.broker.1) && BarCallsIn(t.broker.1) == BarCallsOf(met) + BarCallsIn(part)
    ensures forall k :: HeldIn(t.book, k) == Traded(t.fills, k)
  {
    var log := s.broker.1;
    LogsJoin(log, part);
    SubmittedJoin(s.intents, made);
    forall k
      ensures Traded(s.fills + FillsIn(part), k) == Traded(s.fills, k) + Traded(FillsIn(part), k)
    {
      TradedJoin(s.fills, FillsIn(part), k);
    }
    forall id: Uuid
      ensures LastOf(UpdatesIn(log + part), id) == if LastOf(UpdatesIn(part), id).Some? then LastOf(UpdatesIn(part), id) else LastOf(UpdatesIn(log), id)
    {
      LastOfJoin(UpdatesIn(log), UpdatesIn(part), id);
    }
    hide FillsIn;
    hide UpdatesIn;
    hide SubmittedIn;
    hide SubmittedOf;
    hide BarCallsIn;
    hide BarCallsOf;
    hide LastOf;
    hide Lookup;
    hide HeldIn;
    hide Traded;
  }

  lemma TurnSays<B>(s: State<Watched<B>>, met: seq<Event>, at: Time)
    requires Turn(s, met, at).Success?
    ensures var t := Turn(s, met, at).value;
            t.broker == s.broker && t.intents == s.intents && t.fills == s.fills && t.orders == s.orders && t.book.positions == s.book.positions
  {
    hide Metrics.PointAfter;
    hide Equity;
    hide SnapshotOfAccount;
  }

  lemma RecountsStill<B>(s: State<Watched<B>>, t: State<Watched<B>>, met: seq<Event>)
    requires Recounts(s, met)
    requires t.broker == s.broker && t.intents == s.intents && t.fills == s.fills && t.orders == s.orders && t.book.positions == s.book.positions
    ensures Recounts(t, met)
  {
    assert forall k :: HeldIn(t.book, k) == HeldIn(s.book, k);
  }

  lemma {:induction false} PlayRecounts<B>(g: Engine<Watched<B>>, v: Venue<B>, startedAt: Time, events: seq<Event>)
    requires g.venue == Watch(v) && (forall i :: 0 <= i < |events| ==> WellMade(events[i])) && Play(g, startedAt, events).Success?
    ensures Recounts(Play(g, startedAt, events).value, events)
    decreases |events|
  {
    hide Step;
    hide Turn;
    hide WellMade;
    hide Grew;
    hide Recounts;
    if events == [] {
      FreshRecounts(g, v, startedAt);
    } else {
      var n := |events| - 1;
      var front, e := events[..n], events[n];
      assert events == front + [e];
      PlayRecounts(g, v, startedAt, front);
      var s, t := Play(g, startedAt, front).value, Play(g, startedAt, events).value;
      TurnSays(s, front, e.at);
      var turned := Turn(s, front, e.at).value;
      RecountsStill(s, turned, front);
      var part, made := StepSays(g, v, turned, e, t);
      BarCallsSaid(v, turned, e, part, made);
      hide Says;
      RecountsOn(turned, t, front, e, part, made);
    }
  }

  lemma FreshRecounts<B>(g: Engine<Watched<B>>, v: Venue<B>, startedAt: Time)
    requires g.venue == Watch(v)
    ensures Recounts(Initial(g, startedAt), [])
  {
  }

  /** For every request, configuration, guard and broker: when a run ends, its fills are the broker's fills and its orders
      the broker's last word on each; the intents it calls submitted are those it submitted, in order; the net quantity it
      holds of a series is what was filled of it; the broker has been told every bar's open and every completed bar, in
      the order of the events and nothing else about bars, and last of all to expire its orders. */
  lemma RunRecounts<B>(config: Configuration, v: Venue<B>, guard: Guard, r: Request, h: Hashes)
    requires Ordering(r, h) != [] && Run(Engine(config, Watch(v), guard), Ordering(r, h)).Success?
    ensures var events, s := Ordering(r, h), Run(Engine(config, Watch(v), guard), Ordering(r, h)).value.0;
            Recounts(s, events) && s.broker.1 != [] && s.broker.1[|s.broker.1| - 1].call == ToExpire(events[|events| - 1].at)
  {
    var g, events := Engine(config, Watch(v), guard), Ordering(r, h);
    forall i | 0 <= i < |events|
      ensures WellMade(events[i])
    {
      EventOf(r, h, events[i]);
    }
    hide Ordering;
    var played, closed := RunIs(g, events);
    hide Run;
    EndRecounts(g, v, events, played, closed, Run(g, events).value.0);
  }

  lemma EndRecounts<B>(g: Engine<Watched<B>>, v: Venue<B>, events: seq<Event>, played: State<Watched<B>>, closed: State<Watched<B>>,
                       end: State<Watched<B>>)
    requires g.venue == Watch(v) && (forall i :: 0 <= i < |events| ==> WellMade(events[i])) && events != []
    requires var at := events[|events| - 1].at;
             Play(g, events[0].at, events) == Success(played) && CloseGroup(played, at) == Success(closed) && Finish(g, closed, at) == Success(end)
    ensures Recounts(end, events) && end.broker.1 != [] && end.broker.1[|end.broker.1| - 1].call == ToExpire(events[|events| - 1].at)
  {
    var last := events[|events| - 1].at;
    PlayRecounts(g, v, events[0].at, events);
    hide Play;
    hide Recounts;
    TurnSays(played, events, last + 1);
    RecountsStill(played, closed, events);
    hide CloseGroup;
    hide Turn;
    FinishLaw(g, closed, last);
    hide Finish;
    hide Answered;
    hide Logged;
    hide Grew;
    var reply := v.expire(closed.broker.0, last);
    AnswerGrew(closed, ToExpire(last), reply, last, 7, end);
    ExpiryRecounts(closed, end, events, Entry(ToExpire(last), reply.value.1));
  }

  lemma ExpiryRecounts<B>(s: State<Watched<B>>, t: State<Watched<B>>, met: seq<Event>, e: Entry)
    requires Recounts(s, met) && Grew(s, t, [e], []) && e.call.ToExpire?
    ensures Recounts(t, met) && t.broker.1 == s.broker.1 + [e]
  {
    OneEntry(e);
    GrewRecounts(s, t, met, [e], []);
    hide BarCallsOf;
    hide BarCallsIn;
    hide FillsIn;
    hide UpdatesIn;
    hide SubmittedIn;
    hide SubmittedOf;
    hide LastOf;
    hide Lookup;
    hide HeldIn;
    hide Traded;
    assert BarCallsOf(met) + [] == BarCallsOf(met);
  }
}
