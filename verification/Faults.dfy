/** The deterministic fault schedule and the orchestrator's queue of delayed reports (fix/faults.py). */
module Faults {
  import opened Results
  import opened Models

  datatype FaultType =
    | DropBeforeLogon | DropAfterAcknowledgement | DropActiveOrder | HeartbeatResponseLoss | DuplicateInbound
    | InboundSequenceGap | DelayedOutboundReport | ReconnectDelay

  /** `size` and `delay` are the fault's configured gap and delay. */
  datatype Fault = Fault(id: Uuid, kind: FaultType, scheduledAt: Time, size: int, delay: Time)

  datatype Activation = Activation(fault: Fault, at: Time)

  type Report = nat

  /** Reports held back until `due`. */
  datatype Entry = Entry(due: Time, reports: seq<Report>)

  datatype State = State(activated: set<Uuid>, log: seq<Activation>, queue: seq<Entry>)

  const FRESH := State({}, [], [])

  datatype Message = Message(logon: bool, sequence: int)

  // ---------------------------------------------------------------- the schedule

  predicate IsDue(f: Fault, activated: set<Uuid>, kind: FaultType, at: Time) {
    f.id !in activated && f.scheduledAt <= at && f.kind == kind
  }

  /** `due(at, fault_type=kind)[0]`, in schedule order. */
  function FirstDue(faults: seq<Fault>, activated: set<Uuid>, kind: FaultType, at: Time): Option<Fault> {
    if faults == [] then None
    else if IsDue(faults[0], activated, kind, at) then Some(faults[0])
    else FirstDue(faults[1..], activated, kind, at)
  }

  function AfterActivation(s: State, fault: Option<Fault>, at: Time): State {
    if fault.None? then s
    else s.(activated := s.activated + {fault.value.id}, log := s.log + [Activation(fault.value, at)])
  }

  function AfterDelay(faults: seq<Fault>, s: State, reports: seq<Report>, at: Time): (State, seq<Report>) {
    if reports == [] then (s, reports)
    else
      var fault := FirstDue(faults, s.activated, DelayedOutboundReport, at);
      var t := AfterActivation(s, fault, at);
      if fault.None? then (t, reports) else (t.(queue := t.queue + [Entry(at + fault.value.delay, reports)]), [])
  }

  function Ready(queue: seq<Entry>, at: Time): seq<Report> {
    if queue == [] then []
    else
      var last := queue[|queue| - 1];
      Ready(queue[..|queue| - 1], at) + (if last.due <= at then last.reports else [])
  }

  function Remaining(queue: seq<Entry>, at: Time): seq<Entry> {
    if queue == [] then []
    else
      var last := queue[|queue| - 1];
      Remaining(queue[..|queue| - 1], at) + (if last.due <= at then [] else [last])
  }

  // ---------------------------------------------------------------- any sequence of calls

  datatype Call = Activate(kind: FaultType, at: Time) | Delay(reports: seq<Report>, at: Time) | Release(at: Time)

  function Step(faults: seq<Fault>, s: State, call: Call): (State, seq<Report>) {
    match call
    case Activate(kind, at) => (AfterActivation(s, FirstDue(faults, s.activated, kind, at), at), [])
    case Delay(reports, at) => AfterDelay(faults, s, reports, at)
    case Release(at) => (s.(queue := Remaining(s.queue, at)), Ready(s.queue, at))
  }

  function Run(faults: seq<Fault>, calls: seq<Call>): State {
    if calls == [] then FRESH else Step(faults, Run(faults, calls[..|calls| - 1]), calls[|calls| - 1]).0
  }

  function GivenBy(call: Call): multiset<Report> {
    if call.Delay? then multiset(call.reports) else multiset{}
  }

  /** All reports given to the delay step, and all reports handed back, over a sequence of calls. */
  function Given(calls: seq<Call>): multiset<Report> {
    if calls == [] then multiset{}
    else Given(calls[..|calls| - 1]) + GivenBy(calls[|calls| - 1])
  }

  function HandedBack(faults: seq<Fault>, calls: seq<Call>): multiset<Report> {
    if calls == [] then multiset{}
    else
      var front := calls[..|calls| - 1];
      HandedBack(faults, front) + multiset(Step(faults, Run(faults, front), calls[|calls| - 1]).1)
  }

  function Queued(queue: seq<Entry>): multiset<Report> {
    if queue == [] then multiset{} else Queued(queue[..|queue| - 1]) + multiset(queue[|queue| - 1].reports)
  }

  lemma QueuedAppend(queue: seq<Entry>, e: Entry)
    ensures Queued(queue + [e]) == Queued(queue) + multiset(e.reports)
  {
    assert (queue + [e])[..|queue|] == queue;
  }

  lemma {:induction false} ReleaseSplitsEach(queue: seq<Entry>, at: Time, r: Report)
    ensures Queued(queue)[r] == Queued(Remaining(queue, at))[r] + multiset(Ready(queue, at))[r]
    decreases |queue|
  {
    if queue != [] {
      var front, last := queue[..|queue| - 1], queue[|queue| - 1];
      ReleaseSplitsEach(front, at, r);
      var ready, remaining := Ready(front, at), Remaining(front, at);
      if last.due <= at {
        assert Remaining(queue, at) == remaining + [] == remaining;
      } else {
        QueuedAppend(remaining, last);
        assert Ready(queue, at) == ready + [] == ready;
      }
    }
  }

  lemma ReleaseSplits(queue: seq<Entry>, at: Time)
    ensures Queued(queue) == Queued(Remaining(queue, at)) + multiset(Ready(queue, at))
  {
    forall r
      ensures Queued(queue)[r] == Queued(Remaining(queue, at))[r] + multiset(Ready(queue, at))[r]
    {
      ReleaseSplitsEach(queue, at, r);
    }
  }

  lemma StepConserves(faults: seq<Fault>, s: State, call: Call)
    ensures var (t, out) := Step(faults, s, call); Queued(s.queue) + GivenBy(call) == Queued(t.queue) + multiset(out)
  {
    hide FirstDue;
    match call
    case Activate(kind, at) =>
    case Delay(reports, at) =>
      var t := Step(faults, s, call).0;
      if t.queue != s.queue {
        assert t.queue[..|s.queue|] == s.queue;
      }
    case Release(at) => ReleaseSplits(s.queue, at);
  }

  /** Over any sequence of calls, every report given to the delay step has been handed back or is still queued,
      exactly once. */
  lemma {:induction false} ReportsAreConserved(faults: seq<Fault>, calls: seq<Call>)
    ensures Given(calls) == HandedBack(faults, calls) + Queued(Run(faults, calls).queue)
    decreases |calls|
  {
    if calls != [] {
      var front := calls[..|calls| - 1];
      hide Step;
      hide GivenBy;
      ReportsAreConserved(faults, front);
      var s, call := Run(faults, front), calls[|calls| - 1];
      StepConserves(faults, s, call);
      var (t, out) := Step(faults, s, call);
      Rebalance(Given(front), HandedBack(faults, front), Queued(s.queue), GivenBy(call), Queued(t.queue), multiset(out));
    }
  }

  lemma Rebalance(given: multiset<Report>, back: multiset<Report>, queued: multiset<Report>, more: multiset<Report>,
                  left: multiset<Report>, out: multiset<Report>)
    requires given == back + queued && queued + more == left + out
    ensures given + more == back + out + left
  {
    forall r
      ensures (given + more)[r] == (back + out + left)[r]
    {
      assert (queued + more)[r] == (left + out)[r];
    }
  }

  /** A release hands back the reports of exactly the entries that are due, in the order they were queued. */
  lemma {:induction false} OnlyDueIsReleased(queue: seq<Entry>, at: Time)
    ensures forall r :: r in Ready(queue, at) ==> exists i :: 0 <= i < |queue| && queue[i].due <= at && r in queue[i].reports
    ensures forall e :: e in Remaining(queue, at) <==> e in queue && e.due > at
  {
    if queue != [] {
      var front, last := queue[..|queue| - 1], queue[|queue| - 1];
      OnlyDueIsReleased(front, at);
      assert forall e :: e in queue <==> e in front || e == last;
      forall r | r in Ready(queue, at)
        ensures exists i :: 0 <= i < |queue| && queue[i].due <= at && r in queue[i].reports
      {
        if r in Ready(front, at) {
          var i :| 0 <= i < |front| && front[i].due <= at && r in front[i].reports;
          assert queue[i] == front[i];
        } else {
          assert queue[|queue| - 1] == last;
        }
      }
    }
  }

  // ---------------------------------------------------------------- once, and never early

  lemma {:induction false} FirstDueLaw(faults: seq<Fault>, activated: set<Uuid>, kind: FaultType, at: Time)
    ensures var f := FirstDue(faults, activated, kind, at);
            && (f.None? <==> forall i :: 0 <= i < |faults| ==> !IsDue(faults[i], activated, kind, at))
            && (f.Some? ==> exists i :: 0 <= i < |faults| && faults[i] == f.value && IsDue(f.value, activated, kind, at)
                                        && forall j :: 0 <= j < i ==> !IsDue(faults[j], activated, kind, at))
    decreases |faults|
  {
    if faults != [] && !IsDue(faults[0], activated, kind, at) {
      var rest := faults[1..];
      FirstDueLaw(rest, activated, kind, at);
      assert forall i :: 0 < i < |faults| ==> faults[i] == rest[i - 1];
      var f := FirstDue(rest, activated, kind, at);
      if f.Some? {
        var i :| 0 <= i < |rest| && rest[i] == f.value && forall j :: 0 <= j < i ==> !IsDue(rest[j], activated, kind, at);
        assert faults[i + 1] == f.value;
      }
    }
  }

  /** A fault that may strike: of the kind, with its time come, and not yet activated. */
  predicate Ripe(f: Fault, activated: set<Uuid>, kind: FaultType, at: Time) {
    f.kind == kind && at >= f.scheduledAt && f.id !in activated
  }

  /** The `i`-th fault of the schedule is the first that may strike. */
  predicate Strikes(faults: seq<Fault>, i: nat, activated: set<Uuid>, kind: FaultType, at: Time) {
    i < |faults| && Ripe(faults[i], activated, kind, at) && forall j :: 0 <= j < i ==> !Ripe(faults[j], activated, kind, at)
  }

  function Struck(s: State, f: Fault, at: Time): State {
    s.(activated := s.activated + {f.id}, log := s.log + [Activation(f, at)])
  }

  /** What each call does.  The first fault that may strike is activated and logged; reports given to the delay step while
      one does are held back for its delay, and otherwise come straight back; a release hands back the reports of the entries
      that are due and keeps the others. */
  lemma CallLaw(faults: seq<Fault>, s: State, call: Call)
    ensures var (t, out) := Step(faults, s, call);
            match call
            case Activate(kind, at) =>
              && out == []
              && (if exists i: nat :: Strikes(faults, i, s.activated, kind, at) then
                    exists i: nat :: Strikes(faults, i, s.activated, kind, at) && t == Struck(s, faults[i], at)
                  else t == s)
            case Delay(reports, at) =>
              if reports != [] && exists i: nat :: Strikes(faults, i, s.activated, DelayedOutboundReport, at) then
                out == []
                && exists i: nat ::
                     && Strikes(faults, i, s.activated, DelayedOutboundReport, at)
                     && t == Struck(s, faults[i], at).(queue := s.queue + [Entry(at + faults[i].delay, reports)])
              else t == s && out == reports
            case Release(at) =>
              && t == s.(queue := t.queue)
              && (forall e :: e in t.queue <==> e in s.queue && e.due > at)
              && forall r :: r in out <==> exists e :: e in s.queue && e.due <= at && r in e.reports
  {
    match call
    case Activate(kind, at) => StrikesLaw(faults, s.activated, kind, at);
    case Delay(reports, at) => StrikesLaw(faults, s.activated, DelayedOutboundReport, at);
    case Release(at) => ReleaseLaw(s.queue, at);
  }

  lemma StrikesLaw(faults: seq<Fault>, activated: set<Uuid>, kind: FaultType, at: Time)
    ensures var f := FirstDue(faults, activated, kind, at);
            && (f.None? <==> !exists i: nat :: Strikes(faults, i, activated, kind, at))
            && (f.Some? ==> exists i: nat :: Strikes(faults, i, activated, kind, at) && faults[i] == f.value)
  {
    FirstDueLaw(faults, activated, kind, at);
    var f := FirstDue(faults, activated, kind, at);
    if f.Some? {
      var i: nat :| i < |faults| && faults[i] == f.value && IsDue(f.value, activated, kind, at)
                    && forall j :: 0 <= j < i ==> !IsDue(faults[j], activated, kind, at);
      assert Strikes(faults, i, activated, kind, at);
    }
    hide FirstDue;
  }

  lemma {:induction false} ReleaseLaw(queue: seq<Entry>, at: Time)
    ensures forall e :: e in Remaining(queue, at) <==> e in queue && e.due > at
    ensures forall r :: r in Ready(queue, at) <==> exists e :: e in queue && e.due <= at && r in e.reports
    decreases |queue|
  {
    if queue != [] {
      var front, last := queue[..|queue| - 1], queue[|queue| - 1];
      assert queue == front + [last];
      ReleaseLaw(front, at);
    }
  }

  /** The log names each fault at most once, each from the schedule and none before its time. */
  ghost predicate Orderly(faults: seq<Fault>, s: State) {
    && (forall i, j :: 0 <= i < j < |s.log| ==> s.log[i].fault.id != s.log[j].fault.id)
    && (forall i :: 0 <= i < |s.log| ==> s.log[i].fault in faults && s.log[i].fault.scheduledAt <= s.log[i].at)
    && (forall id: Uuid :: id in s.activated <==> exists i :: 0 <= i < |s.log| && s.log[i].fault.id == id)
  }

  lemma ActivationIsOrderly(faults: seq<Fault>, s: State, kind: FaultType, at: Time)
    requires Orderly(faults, s)
    ensures Orderly(faults, AfterActivation(s, FirstDue(faults, s.activated, kind, at), at))
  {
    FirstDueLaw(faults, s.activated, kind, at);
    var fault := FirstDue(faults, s.activated, kind, at);
    if fault.Some? {
      var t := AfterActivation(s, fault, at);
      assert t.log[|s.log|].fault.id == fault.value.id;
      forall id: Uuid | id in t.activated
        ensures exists i :: 0 <= i < |t.log| && t.log[i].fault.id == id
      {
        if id in s.activated {
          var i :| 0 <= i < |s.log| && s.log[i].fault.id == id;
          assert t.log[i] == s.log[i];
        }
      }
    }
  }

  /** Over any sequence of calls, each scheduled fault activates at most once and never before its time. */
  lemma {:induction false} FaultsActivateOnce(faults: seq<Fault>, calls: seq<Call>)
    ensures Orderly(faults, Run(faults, calls))
    decreases |calls|
  {
    if calls != [] {
      var front, call := calls[..|calls| - 1], calls[|calls| - 1];
      FaultsActivateOnce(faults, front);
      var s := Run(faults, front);
      if !call.Release? {
        ActivationIsOrderly(faults, s, if call.Activate? then call.kind else DelayedOutboundReport, call.at);
      }
      hide FirstDue;
    }
  }

  predicate DueFrom(log: seq<Activation>, e: Entry) {
    exists j :: 0 <= j < |log| && log[j].fault.kind == DelayedOutboundReport && e.due == log[j].at + log[j].fault.delay
  }

  /** Every queued entry is due its configured delay after a delay fault activated. */
  predicate Deadlines(s: State) {
    forall e :: e in s.queue ==> DueFrom(s.log, e)
  }

  lemma StillDue(log: seq<Activation>, more: seq<Activation>, e: Entry)
    requires DueFrom(log, e)
    ensures DueFrom(log + more, e)
  {
    var j :| 0 <= j < |log| && log[j].fault.kind == DelayedOutboundReport && e.due == log[j].at + log[j].fault.delay;
    assert (log + more)[j] == log[j];
  }

  lemma DelayIsDue(faults: seq<Fault>, s: State, reports: seq<Report>, at: Time, e: Entry)
    requires e in AfterDelay(faults, s, reports, at).0.queue && e !in s.queue
    ensures DueFrom(AfterDelay(faults, s, reports, at).0.log, e)
  {
    FirstDueLaw(faults, s.activated, DelayedOutboundReport, at);
    var t := AfterDelay(faults, s, reports, at).0;
    assert t.log[|s.log|].fault.kind == DelayedOutboundReport;
  }

  lemma {:induction false} DeadlinesHold(faults: seq<Fault>, calls: seq<Call>)
    ensures Deadlines(Run(faults, calls))
    decreases |calls|
  {
    if calls != [] {
      var front, call := calls[..|calls| - 1], calls[|calls| - 1];
      DeadlinesHold(faults, front);
      var s, t := Run(faults, front), Run(faults, calls);
      hide FirstDue;
      hide DueFrom;
      forall e | e in t.queue
        ensures DueFrom(t.log, e)
      {
        if call.Release? {
          OnlyDueIsReleased(s.queue, call.at);
        } else if e in s.queue {
          StillDue(s.log, t.log[|s.log|..], e);
          assert t.log == s.log + t.log[|s.log|..];
        } else if call.Delay? {
          DelayIsDue(faults, s, call.reports, call.at, e);
        }
      }
    }
  }

  /** The entry was queued by one of the calls, and is due a delay fault's configured delay after it. */
  predicate DelayedBy(faults: seq<Fault>, calls: seq<Call>, e: Entry) {
    exists i, j :: 0 <= i < |calls| && 0 <= j < |faults| && calls[i].Delay? && calls[i].reports == e.reports
                   && faults[j].kind == DelayedOutboundReport && e.due == calls[i].at + faults[j].delay
  }

  lemma {:induction false} OriginsHold(faults: seq<Fault>, calls: seq<Call>)
    ensures forall e :: e in Run(faults, calls).queue ==> DelayedBy(faults, calls, e)
    decreases |calls|
  {
    if calls != [] {
      var front, call := calls[..|calls| - 1], calls[|calls| - 1];
      OriginsHold(faults, front);
      var s, t := Run(faults, front), Run(faults, calls);
      if call.Release? {
        OnlyDueIsReleased(s.queue, call.at);
      } else {
        FirstDueLaw(faults, s.activated, if call.Activate? then call.kind else DelayedOutboundReport, call.at);
      }
      forall e | e in t.queue
        ensures DelayedBy(faults, calls, e)
      {
        if e in s.queue {
          var i, j :| 0 <= i < |front| && 0 <= j < |faults| && front[i].Delay? && front[i].reports == e.reports
                      && faults[j].kind == DelayedOutboundReport && e.due == front[i].at + faults[j].delay;
          assert calls[i] == front[i];
        }
      }
    }
  }

  /** Some call before the `n`th gave the report to the delay step, at least a delay fault's configured delay earlier. */
  predicate GivenInTime(faults: seq<Fault>, calls: seq<Call>, n: nat, r: Report, at: Time)
    requires n <= |calls|
  {
    exists i, j :: 0 <= i < n && 0 <= j < |faults| && calls[i].Delay? && r in calls[i].reports
                   && faults[j].kind == DelayedOutboundReport && calls[i].at + faults[j].delay <= at
  }

  lemma DueIsInTime(faults: seq<Fault>, calls: seq<Call>, n: nat, e: Entry, r: Report, at: Time)
    requires n <= |calls| && DelayedBy(faults, calls[..n], e) && r in e.reports && e.due <= at
    ensures GivenInTime(faults, calls, n, r, at)
  {
    var front := calls[..n];
    var i, j :| 0 <= i < |front| && 0 <= j < |faults| && front[i].Delay? && front[i].reports == e.reports
                && faults[j].kind == DelayedOutboundReport && e.due == front[i].at + faults[j].delay;
    assert front[i] == calls[i];
  }

  /** No report is ever released before its deadline. */
  lemma NeverReleasedEarly(faults: seq<Fault>, calls: seq<Call>, n: nat, r: Report)
    requires n < |calls| && calls[n].Release? && r in Step(faults, Run(faults, calls[..n]), calls[n]).1
    ensures GivenInTime(faults, calls, n, r, calls[n].at)
  {
    var queue, at := Run(faults, calls[..n]).queue, calls[n].at;
    OnlyDueIsReleased(queue, at);
    OriginsHold(faults, calls[..n]);
    hide Ready;
    hide Remaining;
    hide DelayedBy;
    hide GivenInTime;
    var k :| 0 <= k < |queue| && queue[k].due <= at && r in queue[k].reports;
    var e := queue[k];
    assert e in queue;
    DueIsInTime(faults, calls, n, e, r, at);
  }

  // ---------------------------------------------------------------- the orchestrator

  class FaultOrchestrator {
    const faults: seq<Fault>
    var activated: set<Uuid>
    var log: seq<Activation>
    var delayed: seq<Entry>
    var duplicatePending: bool

    function Value(): State
      reads this
    {
      State(activated, log, delayed)
    }

    /** `faults` is the schedule in its sorted order. */
    constructor (faults: seq<Fault>)
      ensures this.faults == faults && Value() == FRESH && !duplicatePending
    {
      this.faults := faults;
      activated, log, delayed, duplicatePending := {}, [], [], false;
    }

    method ActivateOne(kind: FaultType, at: Time) returns (fault: Option<Fault>)
      modifies this
      ensures fault == FirstDue(faults, old(activated), kind, at)
      ensures Value() == AfterActivation(old(Value()), fault, at) && duplicatePending == old(duplicatePending)
    {
      fault := FindDue(kind, at);
      if fault.Some? {
        activated := activated + {fault.value.id};
        log := log + [Activation(fault.value, at)];
      }
    }

    method FindDue(kind: FaultType, at: Time) returns (fault: Option<Fault>)
      ensures fault == FirstDue(faults, activated, kind, at)
    {
      var i := 0;
      while i < |faults|
        invariant 0 <= i <= |faults|
        invariant FirstDue(faults, activated, kind, at) == FirstDue(faults[i..], activated, kind, at)
      {
        assert faults[i..][1..] == faults[i + 1..];
        if IsDue(faults[i], activated, kind, at) {
          return Some(faults[i]);
        }
        i := i + 1;
      }
      fault := None;
    }

    /** `before_inbound`: `None` when the connection drops before a logon.  Each fault that strikes is consumed. */
    method BeforeInbound(message: Message, at: Time) returns (passed: Option<Message>)
      modifies this
      ensures var drop := if message.logon then FirstDue(faults, old(activated), DropBeforeLogon, at) else None;
              var s := AfterActivation(old(Value()), drop, at);
              var gap := FirstDue(faults, s.activated, InboundSequenceGap, at);
              var t := AfterActivation(s, gap, at);
              var twice := FirstDue(faults, t.activated, DuplicateInbound, at);
              if drop.Some? then passed == None && Value() == s && duplicatePending == old(duplicatePending)
              else if gap.Some? then
                passed == Some(message.(sequence := message.sequence + gap.value.size)) && Value() == t && duplicatePending == old(duplicatePending)
              else passed == Some(message) && Value() == AfterActivation(t, twice, at) && duplicatePending == twice.Some?
    {
      if message.logon {
        var drop := ActivateOne(DropBeforeLogon, at);
        if drop.Some? {
          return None;
        }
      }
      var gap := ActivateOne(InboundSequenceGap, at);
      if gap.Some? {
        return Some(message.(sequence := message.sequence + gap.value.size));
      }
      var twice := ActivateOne(DuplicateInbound, at);
      duplicatePending := twice.Some?;
      passed := Some(message);
    }

    method DelayReports(reports: seq<Report>, at: Time) returns (now: seq<Report>)
      modifies this
      ensures (Value(), now) == AfterDelay(faults, old(Value()), reports, at) && duplicatePending == old(duplicatePending)
    {
      if reports == [] {
        return reports;
      }
      var fault := ActivateOne(DelayedOutboundReport, at);
      if fault.None? {
        return reports;
      }
      delayed := delayed + [Entry(at + fault.value.delay, reports)];
      now := [];
    }

    method ReleaseDelayed(at: Time) returns (ready: seq<Report>)
      modifies this
      ensures ready == Ready(old(delayed), at)
      ensures Value() == old(Value()).(queue := Remaining(old(delayed), at)) && duplicatePending == old(duplicatePending)
    {
      ready := [];
      var remaining: seq<Entry> := [];
      for i := 0 to |delayed|
        invariant ready == Ready(delayed[..i], at) && remaining == Remaining(delayed[..i], at)
        invariant delayed == old(delayed) && Value() == old(Value()) && duplicatePending == old(duplicatePending)
      {
        assert delayed[..i + 1][..i] == delayed[..i];
        if delayed[i].due <= at {
          ready := ready + delayed[i].reports;
        } else {
          remaining := remaining + [delayed[i]];
        }
      }
      assert delayed[..|delayed|] == delayed;
      delayed := remaining;
    }
  }
}
