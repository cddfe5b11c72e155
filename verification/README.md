# A verified model of the trading evaluation core

This project models the deterministic heart of the evaluation system and proves its central promises:

- **Backtest accounting.** Positions move through open, increase, reduce, close and reverse in two accounting modes
  (Spot moves notional cash, linear perpetuals move realized PnL). A mutable portfolio keeps the cash ledger, marks
  and snapshots; an event loop meets bars, marks, funding, signals and opens in one total order; the metrics are
  recomputed from the recorded rows. Proved: the PnL reconciliation can never fail in a run, round trips conserve
  money and do not depend on how a reversal is written, drawdown is the largest fall, marks and equity follow the last
  prices the bars told, a run holds exactly what its broker answered and has told it, and nothing in the state at a
  time depends on later input.
- **FIX 4.4 codec.** Both ends accept exactly the messages the field rules allow, encoding and decoding are inverse
  exactly where stated, and any one-byte error ahead of the trailer is detected (CheckSum and BodyLength as in "Standard Message Header" and "Standard Message Trailer" of
  FIX 4.4, Volume 2).
- **Cursor pagination.** The OKX and Binance loops, against a server that pages a time-sorted history, return every
  record of the window once or stop at the page guard.
- **Point-in-time inputs and data checks.** An alpha value is that of the latest record known at its time and cannot
  depend on the future; gap and reconciliation counts agree with the data.
- **Fault orchestration.** Faults fire once and in time; delayed reports are never lost or doubled.

`Results`, `Models`, `MapSums` and `Sorting` hold shared types and arithmetic of sums and sorting. Each imperative
part of the system is a class or a method with loops (`Portfolio`, `EventLoop`, `FaultOrchestrator`, the fetch loops,
`Validate`, `DecodeMessage`, ...), proved equal to a function; the theorems are about that function. Broker and risk
guard are arbitrary functions of what the engine passes them (`Backtest.Venue`, `Backtest.Guard`); the run theorems
ask of the broker only `Soundness.Conforming`, which the simulated broker is shown to meet.

Check everything with `dafny verify dfyconfig.toml`.

## Where the code falls short of its promises

- Equity below zero after a positive peak makes the equity-curve point raise, although the metrics allow for
  non-positive equity: `Metrics.PointLaw` gives the exact condition, `Shortfalls.NegativeEquityRaises` a book.
- The round-trip metrics sort funding ahead of the fills of its instant, while the engine pays it after those of the
  completed bar. A payment is lost to them exactly when the fills of strictly earlier instants leave its series flat
  (`RoundTrips.RowIsLost`, `RoundTrips.ConservedIffNothingLost`; a run in `Shortfalls.SameInstantFundingIsLost`). It
  cannot happen when no funding time is a bar's close time, nor with the simulated broker under market or
  immediate-or-cancel orders (`FundingTimes.NothingLostBetweenCloses`, `FundingTimes.SimulatedLosesNothing`).
- OKX trade pagination silently loses trades exactly when a page boundary falls within one millisecond
  (`BackwardPages.TradesFetchAllUnlessSplit`, `BackwardPages.SplitMillisecondLosesATrade`).
- A later record that makes a series invalid as a whole makes the as-of evaluation of that series fail
  (`Alpha.PastDecides` gives the exact condition, `Alpha.LaterRepeatFailsPast` an input).
- A FIX message with an original sending time but no duplicate flag, a delimiter inside a value, or a tag in the
  wrong part encodes but does not decode to itself (`FixRoundTrips.RoundTrip` gives the exact condition, the three
  lemmas at the end of that module one message each).

## Model

| member | source | states |
|---|---|---|
| Positions.MoveShape | open-core/src/secure_eval_wrapper/execution/positions.py:39-72 | A signed trade is refused exactly when it would leave a Spot holding negative; otherwise quantity grows by the trade, the average is the weighted mean, kept, dropped or restarted at the trade price according to the five cases, realized PnL is the closed part times the gain, and the result is again a valid holding. |
| Positions.ApplyFillLaw | open-core/src/secure_eval_wrapper/execution/positions.py:32-87 | A fill is applied exactly when series, mode and fill id fit and Spot is not oversold; state, realized PnL, source fills and flags then follow the trade law and the constructor invariants hold. |
| Positions.WorthLaw | open-core/src/secure_eval_wrapper/execution/positions.py:39-95 | Every branch obeys one law: realized plus marked value changes by signed quantity times (mark - trade price), for any mark. |
| Positions.SplitInTwo | open-core/src/secure_eval_wrapper/execution/positions.py:39-72 | One trade of q1+q2 and two trades q1, q2 at that price succeed together and leave the same quantity and average, also when the first piece closes or reverses. |
| Positions.SplittingIsInvisible | open-core/src/secure_eval_wrapper/execution/positions.py:39-72 | For any list of trades and any way of cutting each into same-signed pieces, the cut list and the whole list give the same holding, average and realized PnL, or the same refusal. |
| Positions.ReachableHolding | open-core/src/secure_eval_wrapper/execution/models.py:476-484 | After any accepted list of trades the position constructor holds, quantity is the starting quantity plus the signed sum, and the average lies between the lowest and the highest opening-side price since the last flat or reversal. |
| Positions.FillsFollowTrades | open-core/src/secure_eval_wrapper/execution/positions.py:32-87 | A list of fills is accepted exactly when every fill is addressed to the position, no fill id repeats and the trades are accepted; the position then holds what the trades give. |
| Sizing.RoundingLaw | open-core/src/secure_eval_wrapper/execution/sizing.py:52-57 | Rounding moves toward zero by less than one step, keeps the sign, and gives a whole number of steps. |
| Sizing.TargetLaw | open-core/src/secure_eval_wrapper/execution/sizing.py:60-83 | Sizing fails exactly on a non-positive reference price; otherwise the target is a step multiple, rounded toward zero, on the side of the signal. |
| Sizing.SizeLaw | open-core/src/secure_eval_wrapper/execution/sizing.py:60-83 | The whole result: a flat signal targets nothing; otherwise the target buys the configured quantity, or the configured notional at the reference price, exactly without a step and else short of it by less than one step; it lies on the side of the signal, delta is target less holding, the side is the sign of delta, and the two no-action reasons are given in their cases. |
| Sizing.SizingReachesTarget | open-core/src/secure_eval_wrapper/execution/sizing.py:60-83 | No action exactly when the holding is at its target; otherwise the emitted side and size meet the order-intent invariants, a fill in full reaches the target exactly, and sizing again at that price is no action. A Spot fill is refused exactly for a short target. |
| Accounting.OpenBookIsGood | open-core/src/secure_eval_wrapper/execution/accounting.py:28-58 | A new book satisfies the invariant `Good` (ledger sums and running balances, cash law, keyed valid positions, latest snapshot equal to position at mark) with equity equal to initial cash. |
| Accounting.PostLaw | open-core/src/secure_eval_wrapper/execution/accounting.py:60-86 | A ledger row raises exactly its own entry type by its amount and keeps every running balance equal to the sum so far. |
| Accounting.PostFillLaw | open-core/src/secure_eval_wrapper/execution/accounting.py:104-118 | Posting a fill moves cash by its notional (Spot) or realized PnL (perpetual) less the fee, raises the fee total, and leaves marks, snapshots and other positions alone. |
| Accounting.CostLaw | open-core/src/secure_eval_wrapper/execution/accounting.py:107-111 | In both modes the trade cash is the realized PnL less the growth of the carrying cost of Spot holdings. |
| Accounting.ApplyFillKeepsGood | open-core/src/secure_eval_wrapper/execution/accounting.py:100-126 | An accepted fill keeps `Good`. |
| Accounting.SetMarkKeepsGood | open-core/src/secure_eval_wrapper/execution/accounting.py:128-152 | An accepted mark keeps `Good`. |
| Accounting.ApplyFundingKeepsGood | open-core/src/secure_eval_wrapper/execution/accounting.py:191-193 | Funding keeps `Good` and moves equity by exactly the cash flow. |
| Accounting.SnapshotAccountKeepsGood | open-core/src/secure_eval_wrapper/execution/accounting.py:221-240 | An account snapshot keeps `Good` and equity. |
| Accounting.FillEquityLaw | open-core/src/secure_eval_wrapper/execution/accounting.py:100-126 | With a mark present, any accepted fill in either mode changes equity by signed quantity times (mark - price) less the fee. |
| Accounting.MarkEquityLaw | open-core/src/secure_eval_wrapper/execution/accounting.py:128-152 | Moving a mark from m to m' changes equity by quantity times (m' - m) in both modes, and by nothing for a series not held. |
| Accounting.ReconcilesExactly | open-core/src/secure_eval_wrapper/backtesting/metrics.py:67-78 | In a good book equity less initial cash equals realized plus latest unrealized plus FUNDING plus (negative) FEE rows if and only if no open Spot holding lacks a mark. |
| Accounting.Portfolio.constructor | open-core/src/secure_eval_wrapper/execution/accounting.py:28-58 | The new object is valid and its value is the opening book. |
| Accounting.Portfolio.PostEntry | open-core/src/secure_eval_wrapper/execution/accounting.py:60-86 | The object's value moves exactly as the ledger law says. |
| Accounting.Portfolio.SnapshotPosition | open-core/src/secure_eval_wrapper/execution/accounting.py:154-189 | Adds one position snapshot at the current mark, or raises on a mark later than the snapshot. |
| Accounting.Portfolio.Fill | open-core/src/secure_eval_wrapper/execution/accounting.py:100-126 | Value and exception after a fill are those of the fill function, including the partly posted state when the snapshot raises. |
| Accounting.Portfolio.Mark | open-core/src/secure_eval_wrapper/execution/accounting.py:128-152 | Value and exception after a mark are those of the mark function. |
| Accounting.Portfolio.Fund | open-core/src/secure_eval_wrapper/execution/accounting.py:191-193 | Value after a funding payment is that of the funding function. |
| Accounting.Portfolio.Values | open-core/src/secure_eval_wrapper/execution/accounting.py:195-219 | The accumulating loop returns equity, gross and net exposure, realized, unrealized and the stale count as sums over the held series. |
| Accounting.Portfolio.SnapshotAll | open-core/src/secure_eval_wrapper/execution/accounting.py:221-240 | Value after an account snapshot, with the raised peak. |
| RoundTrips.Split | open-core/src/secure_eval_wrapper/backtesting/metrics.py:15-24 | The loop over ledger and snapshots collects each fill's total fee and the funding and fill items. |
| RoundTrips.TimelineKeeps | open-core/src/secure_eval_wrapper/backtesting/metrics.py:16-25 | The sorted timeline is in order, keeps the fills in recorded order, and carries exactly the recorded fees and funding. |
| RoundTrips.AdvanceTrips | open-core/src/secure_eval_wrapper/backtesting/metrics.py:31-60 | One pass through the loop body is one step of the fold. |
| RoundTrips.FoldLoop | open-core/src/secure_eval_wrapper/backtesting/metrics.py:27-61 | The imperative fold returns the round trips of the functional fold, or its missing-fill error. |
| RoundTrips.RoundTripPnls | open-core/src/secure_eval_wrapper/backtesting/metrics.py:11-61 | The whole method equals the fold over the sorted timeline. |
| RoundTrips.FoldConserves | open-core/src/secure_eval_wrapper/backtesting/metrics.py:27-61 | Along any chained timeline: completed trips plus open accumulators plus funding met while flat equals realized plus fees plus funding met, and quantities and realized PnL track the fills. |
| RoundTrips.ApplyFillHistory | open-core/src/secure_eval_wrapper/execution/accounting.py:100-126 | Fill snapshots form a chain that ends at the current positions and carries every fee row; a fill extends it by one. |
| RoundTrips.RoundTripConservation | open-core/src/secure_eval_wrapper/backtesting/metrics.py:11-61 | For any book with that history, fee-splitting reversals included: completed trips plus open accumulators plus idle funding equals realized plus FEE plus FUNDING. |
| RoundTrips.RowIsLost | open-core/src/secure_eval_wrapper/backtesting/metrics.py:31-36 | A funding row finds its series flat in the sorted timeline if and only if the fills of strictly earlier instants leave the series flat. |
| RoundTrips.IdleIsLost | open-core/src/secure_eval_wrapper/backtesting/metrics.py:21-36 | The funding that no round trip receives is exactly the sum, over the ledger, of the funding rows whose series the fills of strictly earlier instants leave flat. |
| RoundTrips.ConservedIffNothingLost | open-core/src/secure_eval_wrapper/backtesting/metrics.py:11-61 | Completed trips plus open accumulators equal realized plus FEE plus FUNDING less that sum, and so equal the whole if and only if it is zero. |
| Reversals.ReversalIsTwoFills | open-core/src/secure_eval_wrapper/backtesting/metrics.py:48-52 | Writing a reversal as a close and an open changes nothing: records with one fill that takes a series through flat, and records with two fills that meet there, the fee shared by size and all else charged, sized and funded alike, give the same trips, accumulators and errors. |
| Reversals.TripIsItsBookings | open-core/src/secure_eval_wrapper/backtesting/metrics.py:27-61 | The result of a round trip is the profit its series realized, the fees it paid and the funding it met from the fill that opened it to the fill that closed it, whatever other series do in between. |
| Reversals.TripCount | open-core/src/secure_eval_wrapper/backtesting/metrics.py:48-60 | There is one round trip for each fill that takes its series to flat or through it, and no other. |
| Reversals.SizesLaw | open-core/src/secure_eval_wrapper/backtesting/metrics.py:14-14 | A fill's size in the round trips is its quantity; of two fills with one id the later counts. |
| Shortfalls.SameInstantFundingIsLost | open-core/src/secure_eval_wrapper/backtesting/metrics.py:21-36 | Counterexample: a bar opens at 10, its completion fills a buy, it closes at 10 and the engine pays funding of -1 at that instant; the payment appears in no round trip and no accumulator. |
| Shortfalls.NegativeEquityRaises | open-core/src/secure_eval_wrapper/backtesting/models.py:232-235 | Counterexample: cash 1, one contract sold at 10 and marked at 20; equity is -9 below a peak of 1 and the curve point raises. |
| Metrics.PointLaw | open-core/src/secure_eval_wrapper/backtesting/models.py:232-235 | A curve point is refused exactly when equity is negative below a positive peak; otherwise its drawdown is the fall from the highest equity so far and its fraction lies in [0, 1] and is that fall's share of the peak, or absent if equity was never positive. |
| Metrics.MaximumDrawdownIsLargestFall | open-core/src/secure_eval_wrapper/backtesting/metrics.py:80-80 | The maximum drawdown reported from the running peak is the maximum of equity_i - equity_j over all i <= j, attained. |
| Metrics.MismatchOnlyIfUnmarked | open-core/src/secure_eval_wrapper/backtesting/metrics.py:75-78 | On a good book the reconciliation error is raised if and only if an open Spot holding has no mark. |
| Metrics.SumLatest | open-core/src/secure_eval_wrapper/backtesting/metrics.py:69-72 | The dictionary loop sums the unrealized PnL of each series' latest snapshot. |
| Metrics.SumRows | open-core/src/secure_eval_wrapper/backtesting/metrics.py:73-74 | The ledger sums by entry type. |
| Metrics.CalculateMetrics | open-core/src/secure_eval_wrapper/backtesting/metrics.py:64-85 | Returns the summary or the same exception in the same order: empty curve, mismatch, missing fill. |
| Events.InputOrderIrrelevant | open-core/src/secure_eval_wrapper/backtesting/engine.py:95-165 | Permuting bars, signals and funding records changes neither acceptance nor the event sequence. |
| Events.EventOf | open-core/src/secure_eval_wrapper/backtesting/engine.py:117-121 | An event is in the sequence exactly when it is one of the three events of a bar, a signal or a funding record of the request. |
| Events.OrderingLaw | open-core/src/secure_eval_wrapper/backtesting/engine.py:159-159 | Any two events stand in the order of time, then priority, then series, then content, and none is lost or doubled. |
| Events.SameStory | open-core/src/secure_eval_wrapper/backtesting/engine.py:117-159 | Two valid requests that agree up to t (bars open at t only in series, open time and open price) give the same events up to t, hashes of unfinished bars aside. |
| Events.SeenFirst | open-core/src/secure_eval_wrapper/backtesting/engine.py:159-159 | The events up to t are a prefix of the sequence. |
| Events.CollectBars | open-core/src/secure_eval_wrapper/backtesting/engine.py:92-121 | The bar loop rejects exactly an invalid bar or a repeated (series, open time), and gathers identities, close times and events. |
| Events.CheckSettlement | open-core/src/secure_eval_wrapper/backtesting/engine.py:122-131 | The loop over identities accepts exactly when every bar's instrument settles in the base currency. |
| Events.CheckSignals | open-core/src/secure_eval_wrapper/backtesting/engine.py:133-145 | The signal loop accepts exactly when each signal has a bar of its series closed by then and none repeats. |
| Events.CheckRates | open-core/src/secure_eval_wrapper/backtesting/engine.py:147-157 | The funding loop accepts exactly valid perpetual records of a known instrument, none repeated. |
| Events.DistinctBySize | open-core/src/secure_eval_wrapper/backtesting/engine.py:160-162 | Comparing a list's length with its set's size detects exactly the repeats. |
| Events.Validate | open-core/src/secure_eval_wrapper/backtesting/engine.py:89-163 | The whole imperative validation succeeds exactly on valid requests and returns the sorted event sequence. |
| Events.AcceptedLaw | open-core/src/secure_eval_wrapper/backtesting/engine.py:89-163 | Validity in full: bars with their provider, finality, times, ranges and volume, quote and settlement assets, signals with a bar closed by then, perpetual rates of a known instrument, and exactly which repeats are refused. |
| Lookahead.StepVeiled | open-core/src/secure_eval_wrapper/backtesting/engine.py:250-315 | An event's effect does not depend on what of a just-opened bar is still unknown: high, low, close, volume and content hash. |
| Lookahead.NoLookahead | open-core/src/secure_eval_wrapper/backtesting/engine.py:89-322 | For any broker and risk guard: two valid requests that agree up to t give the same state at t (positions, cash, ledger, marks, broker, orders, fills, audit, equity curve) or the same exception, and both whole runs end with all of that unchanged at their start. |
| Lookahead.RunContains | open-core/src/secure_eval_wrapper/backtesting/engine.py:250-324 | Cutting the events between two timestamps: the state there is recorded unchanged in the finished run, and an early exception is the run's exception. |
| Lookahead.SameRunInAnyInputOrder | open-core/src/secure_eval_wrapper/backtesting/engine.py:159-324 | Any permutation of a valid request is valid and gives the identical run and metrics. |
| Soundness.StepSound | open-core/src/secure_eval_wrapper/backtesting/engine.py:251-315 | Each kind of event keeps the run invariant (good book, history law, marked holdings, increasing snapshot sequence, curve drawn from the accounts) and raises no internal error. |
| Soundness.CloseGroupSound | open-core/src/secure_eval_wrapper/backtesting/engine.py:317-322 | Closing a timestamp keeps the invariant, and the new curve point's equity is the book's. |
| Runs.OpensFirst | open-core/src/secure_eval_wrapper/backtesting/engine.py:117-121 | Every completed bar was opened earlier in the sequence. |
| Runs.ClosesFirst | open-core/src/secure_eval_wrapper/backtesting/engine.py:143-145 | Before every signal, a bar of its series has closed in the sequence. |
| Runs.PlaySound | open-core/src/secure_eval_wrapper/backtesting/engine.py:250-315 | After any number of events of a valid request the run invariant holds and every series met is marked, or the run stopped on an input error. |
| Runs.RunReconciles | open-core/src/secure_eval_wrapper/backtesting/metrics.py:67-80 | Whole-run theorem: the run never raises the PnL mismatch, a missing-fill error or another internal error; a finished run's net PnL is equity less initial cash and equals realized + unrealized + funding - fees, its round trips hold all of that but the lost funding, and its maximum drawdown is the largest fall of equity. |
| Marking.MarksFollowBars | open-core/src/secure_eval_wrapper/backtesting/engine.py:261-315 | After any number of events of a valid request, for any broker, exactly the series whose bars have told a price are marked, each with price, instant and source of the close of a completed bar or the open of an opened one, none later, an open counting as later than a close. |
| Marking.EquityFollowsBars | open-core/src/secure_eval_wrapper/execution/accounting.py:195-219 | At every such moment equity is cash plus each holding at the last price its bars told: quantity times price on Spot, quantity times (price - average) on a perpetual; with a conforming broker every holding has such a price. |
| EngineLaws.HandleLaw | open-core/src/secure_eval_wrapper/backtesting/engine.py:229-248 | A broker answer raises, or is recorded in full: decisions, fills, the last word on every order, the audit rows of each in order with their numbers, and the book after the fills. |
| EngineLaws.FillLaw | open-core/src/secure_eval_wrapper/execution/accounting.py:100-126 | When a fill is refused and with which error; a booked fill writes exactly its ledger rows, moves its position, shows it at the current mark, and moves nothing else. |
| EngineLaws.MarkLaw | open-core/src/secure_eval_wrapper/backtesting/engine.py:261-266 | A mark is refused exactly when not positive; otherwise it becomes the mark of its series, a held position is shown at it with age zero, and nothing else moves. |
| EngineLaws.CompletedLaw | open-core/src/secure_eval_wrapper/backtesting/engine.py:253-260 | A completed bar: the event is recorded and the broker is given the whole bar, with a check that asks the guard about a fill on the book as it stands. |
| EngineLaws.OpenLaw | open-core/src/secure_eval_wrapper/backtesting/engine.py:304-315 | An opening bar: its open becomes the mark first; then the broker is given the open, with a check on the marked book. |
| EngineLaws.OnFundingLaw | open-core/src/secure_eval_wrapper/backtesting/engine.py:267-283 | A funding event pays, in digest order, exactly the marked perpetuals of the rate's own instrument, minus quantity times mark times rate each, zero flows only if recorded; it raises exactly when an ungrounded settled rate meets one; cash, ledger and audit rows are those of the payments. |
| EngineLaws.OrderPricesLaw | open-core/src/secure_eval_wrapper/backtesting/engine.py:183-198 | A limit lies below the reference for a buy and above for a sell, a stop the other way, a stop-limit's limit beyond its stop, each by its offset in basis points; no order type has another price. |
| EngineLaws.SignalLaw | open-core/src/secure_eval_wrapper/backtesting/engine.py:284-303 | After the cancels a signal raises for a missing mark, an instrument or a price, or is already met, or leaves one intent for the difference between target and holding at the mark, decided on by the guard with the book and the counts of active orders; it reaches the broker if and only if accepted. |
| EngineLaws.CloseGroupLaw | open-core/src/secure_eval_wrapper/backtesting/engine.py:317-322 | The account drawn up at the end of a timestamp: equity, gross and net exposure, realized and unrealized PnL, fees, funding and stale marks, each spelled out; the peak, the audit row and the curve point follow. |
| EngineLaws.FinishLaw | open-core/src/secure_eval_wrapper/backtesting/engine.py:324-324 | When the events are over the broker is told to expire its orders, and its answer is recorded. |
| Conversation.StepSays | open-core/src/secure_eval_wrapper/backtesting/engine.py:251-315 | For any broker, watched through a log: what is said on each event, in order, namely the whole bar, the open, nothing, or a cancel for each active order of the series and then the accepted intent; and what the state gains from the answers. |
| Conversation.RunRecounts | open-core/src/secure_eval_wrapper/backtesting/engine.py:199-324 | For every request, configuration, guard and broker: a finished run holds exactly the broker's fills and its last word on every order, calls submitted exactly the intents submitted, holds of each series what was filled of it, and has told the broker every open and every completed bar in event order and last of all to expire. |
| RunRecords.RunKeepsRecords | open-core/src/secure_eval_wrapper/backtesting/engine.py:267-322 | In a finished run every funding payment comes from a settled rate of its own instrument, every intent from a signal, both at the last price told by then; and the equity curve has one point for each instant of the events, in order. |
| RunRecords.RunSummary | open-core/src/secure_eval_wrapper/backtesting/metrics.py:64-85 | Reported realized and unrealized PnL are the sums over the final positions, unrealized at their marks; gross is before fees and the trips are those of the records. |
| Chronology.RunIsChronological | open-core/src/secure_eval_wrapper/backtesting/engine.py:221-226 | The audit log of a finished run is numbered 1, 2, ... in time and priority order; and no funding is lost if no completed-bar fill shares series and instant with a payment. |
| FundingTimes.NothingLostBetweenCloses | open-core/src/secure_eval_wrapper/backtesting/engine.py:117-121 | For any broker of the run theorems: if no funding time of the request is the close time of a bar, no funding is lost and the round trips hold the whole of the run's profit, fees and funding. |
| FundingTimes.NothingLostIfQuiet | open-core/src/secure_eval_wrapper/backtesting/engine.py:253-260 | The same, whatever the funding times, for a broker that fills nothing when a bar completes. |
| FundingTimes.SimulatedIsQuiet | open-core/src/secure_eval_wrapper/execution/brokers/simulated.py:118-141 | The simulated broker fills nothing when a bar completes if the configured orders are market orders or immediate-or-cancel. |
| FundingTimes.SimulatedLosesNothing | open-core/src/secure_eval_wrapper/execution/brokers/simulated.py:118-141 | Hence no run of the simulated broker with such orders loses any funding. |
| Chronology.CompletedBarMeetsEarlierIntents | open-core/src/secure_eval_wrapper/backtesting/engine.py:117-145 | When a bar completes, every intent in existence was made strictly before that instant: no order of a signal at that instant is visible to it. |
| Chronology.FundingLaw | open-core/src/secure_eval_wrapper/execution/funding.py:17-40 | Who pays: nothing unless a perpetual position and a rate that is not predicted only, an error exactly without a known interval, nothing on a zero flow unless asked for; else a payment dated by the rate, of minus the rate times the exposure, zero only for a zero holding or rate, and owed by a long on a positive rate. |
| Chronology.FundingCancels | open-core/src/secure_eval_wrapper/execution/funding.py:23-40 | Opposite holdings of one kind pay opposite flows. |
| BacktestRun.EventLoop.constructor | open-core/src/secure_eval_wrapper/backtesting/engine.py:200-219 | A new loop object stands at the initial state. |
| BacktestRun.EventLoop.RecordEvent | open-core/src/secure_eval_wrapper/backtesting/engine.py:221-226 | Appends one audit row with the next sequence number. |
| BacktestRun.EventLoop.HandleBrokerResult | open-core/src/secure_eval_wrapper/backtesting/engine.py:229-248 | Decisions, orders, then fills are recorded and booked in that order; state and exception are those of the specification. |
| BacktestRun.CountOrders | open-core/src/secure_eval_wrapper/backtesting/engine.py:170-173 | The counting loop gives the active orders per series. |
| BacktestRun.EventLoop.RiskViewOf | open-core/src/secure_eval_wrapper/backtesting/engine.py:168-181 | The view holds the book's cash, equity, peak, positions, mark prices and the order counts. |
| BacktestRun.EventLoop.BarCompleted | open-core/src/secure_eval_wrapper/backtesting/engine.py:253-260 | State and exception after a completed bar. |
| BacktestRun.EventLoop.UpdateMark | open-core/src/secure_eval_wrapper/backtesting/engine.py:261-266 | State and exception after a mark update or the mark of an opening bar. |
| BacktestRun.EventLoop.BarOpened | open-core/src/secure_eval_wrapper/backtesting/engine.py:304-315 | State and exception after a bar opens: the mark first, then the broker. |
| BacktestRun.EventLoop.PayFunding | open-core/src/secure_eval_wrapper/backtesting/engine.py:267-283 | The loop over positions in digest order pays the rate where instrument and mark allow. |
| BacktestRun.EventLoop.SignalRaised | open-core/src/secure_eval_wrapper/backtesting/engine.py:284-303 | Cancels the series' active orders, sizes, records no action or an intent with its decision, and submits it if accepted. |
| BacktestRun.EventLoop.Meet | open-core/src/secure_eval_wrapper/backtesting/engine.py:251-315 | Dispatch by event kind agrees with the specification step. |
| BacktestRun.EventLoop.DrawUp | open-core/src/secure_eval_wrapper/backtesting/engine.py:317-322 | Snapshots the account and appends the curve point, or raises the point's error. |
| BacktestRun.EventLoop.Group | open-core/src/secure_eval_wrapper/backtesting/engine.py:250-251 | The inner loop meets exactly the events of one timestamp. |
| BacktestRun.EventLoop.Loop | open-core/src/secure_eval_wrapper/backtesting/engine.py:250-322 | The nested loops end in the state, or with the exception, of playing the whole sequence. |
| BacktestRun.RunBacktest | open-core/src/secure_eval_wrapper/backtesting/engine.py:199-330 | The imperative run, from validation to metrics, returns exactly the specified run of a valid request, and fails on an invalid one. |
| SimulatedBroker.BarFills | open-core/src/secure_eval_wrapper/execution/brokers/simulated.py:85-141 | Every fill at an open or a completed bar is of one of the series' active orders, whole, at that instant, on the order's side and within its limit. |
| BrokerLaws.OpenOneLaw | open-core/src/secure_eval_wrapper/execution/brokers/simulated.py:85-116 | What becomes of one order at an open: market orders, limits met, stops passed and stop-limits both passed and met are tried, at the open with adverse slippage or exactly, with maker or taker fee and the guard asked; a passed stop-limit is triggered; an immediate-or-cancel order that is not tried expires. |
| BrokerLaws.CompleteOneLaw | open-core/src/secure_eval_wrapper/execution/brokers/simulated.py:118-141 | What becomes of one resting order, submitted strictly earlier, at a completed bar: a limit its range reached trades at the limit as maker, a stop it passed at the stop with adverse slippage as taker, a stop-limit is triggered. |
| BrokerLaws.OpenAllLaw | open-core/src/secure_eval_wrapper/execution/brokers/simulated.py:85-116 | At an open exactly the orders whose terms are met are tried, and each fill is of one of them on its terms: price, fee, quantity, instant. |
| BrokerLaws.CompleteAllLaw | open-core/src/secure_eval_wrapper/execution/brokers/simulated.py:118-141 | The same for a completed bar. |
| BrokerLaws.BookLaw | open-core/src/secure_eval_wrapper/execution/brokers/simulated.py:33-47 | Submitting makes an accepted order active and rejects a refused one, cancelling removes and reports an active order, and at the end every active order expires. |
| BrokerLaws.ActiveLaw | open-core/src/secure_eval_wrapper/execution/brokers/simulated.py:49-54 | The active orders of a series, or all of them, each once, by submission time and identity. |
| SimulatedBroker.SimulatedConforms | open-core/src/secure_eval_wrapper/execution/brokers/simulated.py:33-150 | The simulated broker meets all that the run theorems ask of a broker. |
| SimulatedBroker.LimitIsNeverBroken | open-core/src/secure_eval_wrapper/execution/brokers/simulated.py:62-66 | For orders made by the engine the broker's "beyond its limit" exceptions cannot fire. |
| SimulatedBroker.IntentLimitFits | open-core/src/secure_eval_wrapper/backtesting/engine.py:183-198 | Every intent the engine prices has a limit exactly when its order type uses one. |
| SimulatedBroker.SimulatedRunReconciles | open-core/src/secure_eval_wrapper/backtesting/engine.py:199-330 | The whole-run reconciliation and drawdown results for the simulated broker, with any settings and any risk guard and no further assumption. |
| FixText.PyIntOfStr | open-core/src/secure_eval_wrapper/fix/codec.py:68-68 | Reading back the decimal text of any integer gives that integer. |
| FixText.PyIntChars | open-core/src/secure_eval_wrapper/fix/codec.py:33-36 | Text accepted as an integer has only digits, sign, underscores and blanks, and stripping does not change its value. |
| FixGrammar.IntLaw | open-core/src/secure_eval_wrapper/fix/codec.py:33-36 | A text is read as an integer exactly when it is blanks, a sign or none, digits with single underscores between them, and blanks; the value is what the digits spell, signed. |
| FixGrammar.UtcLaw | open-core/src/secure_eval_wrapper/fix/codec.py:24-28 | A text with four digits of year, two of every other part and up to six decimals is read as that instant exactly when its day is in the calendar, leap years included, and its time of day exists; otherwise it is refused. |
| FixText.SecondsLaw | open-core/src/secure_eval_wrapper/fix/codec.py:20-28 | Seconds with microseconds, trailing zeros trimmed, read back exactly. |
| FixText.ParseOfFormat | open-core/src/secure_eval_wrapper/fix/codec.py:20-28 | Every valid UTC instant reads back from its formatted text. |
| FixText.TimestampIsBare | open-core/src/secure_eval_wrapper/fix/codec.py:24-28 | An accepted timestamp has no surrounding blanks. |
| FixRoundTrips.Delivered | open-core/src/secure_eval_wrapper/fix/codec.py:65-113 | A clean message decodes to itself, with an original sending time only beside the duplicate flag, and with the length and checksum of the frame. |
| FixRoundTrips.RoundTrip | open-core/src/secure_eval_wrapper/fix/codec.py:65-113 | Whatever encodes decodes to the same logical message if and only if no value holds the delimiter, every tag is in its own part and an original sending time comes only with the duplicate flag; `=` and `10=` inside values are harmless. |
| FixRoundTrips.OriginWithoutFlagIsDropped | open-core/src/secure_eval_wrapper/fix/codec.py:68-69 | Counterexample: a heartbeat with an original sending time and no duplicate flag encodes and decodes to another message. |
| FixRoundTrips.DelimiterInTextIsLost | open-core/src/secure_eval_wrapper/fix/codec.py:70-71 | Counterexample: a logout whose text holds the delimiter encodes and does not decode to itself. |
| FixRoundTrips.MisplacedTagMoves | open-core/src/secure_eval_wrapper/fix/codec.py:70-108 | Counterexample: tag 58 given as an extension encodes and comes back as a field. |
| FixRoundTrips.Accepted | open-core/src/secure_eval_wrapper/fix/codec.py:104-113 | Every decoded message satisfies the message constructor, the field rules and the conditions for encoding. |
| FixRoundTrips.StripFields | open-core/src/secure_eval_wrapper/fix/codec.py:30-61 | Fields that pass validation still pass it after the message constructor strips them. |
| FixRoundTrips.CanEncode | open-core/src/secure_eval_wrapper/fix/codec.py:65-73 | Every message the decoder can build encodes. |
| FixRoundTrips.Reencode | open-core/src/secure_eval_wrapper/fix/codec.py:65-113 | Re-encoding any accepted bytes succeeds, and decodes to the same logical message if and only if tag 122 came with 43=Y. |
| FixAcceptance.AcceptLaw | open-core/src/secure_eval_wrapper/fix/codec.py:74-113 | Any text is decoded exactly when it is ASCII items ended by the delimiter, with 8=FIX.4.4 and 9 first, 10 last, no tag twice and the header complete, its length and checksum being those of the text, its type known, its required tags there, every value of its kind, its prices those of its order type, its flag Y with 122 or N, its unknown tags preserved, and no text blank. |
| FixAcceptance.MadeLaw | open-core/src/secure_eval_wrapper/fix/codec.py:104-113 | The decoded message has the type, numbers, parties and times of its header tags and exactly the body tags and the unknown tags of the text, each with its value stripped. |
| FixLaws.DeclaredChecksum | open-core/src/secure_eval_wrapper/fix/codec.py:99-103 | In accepted bytes the checksum declared in the trailer is the byte sum before the last `10=`, modulo 256. |
| FixLaws.OneByteIsDetected | open-core/src/secure_eval_wrapper/fix/codec.py:75-103 | Replacing any one byte before the trailer of accepted bytes by any other makes decoding fail. |
| FixRules.EncodeLaw | open-core/src/secure_eval_wrapper/fix/codec.py:30-73 | Encoding succeeds exactly when unknown tags are absent or preserved, every tag the message type must carry is there, every value is of the kind its tag allows, an order has the prices of its type, and all text is ASCII; otherwise it fails with the first of these. |
| FixRules.DecodeLaw | open-core/src/secure_eval_wrapper/fix/codec.py:74-113 | Decoding a framed clean message fails in the same two cases in the same order, and otherwise delivers it. |
| FixRules.OrderTypeDecides | open-core/src/secure_eval_wrapper/fix/codec.py:46-50 | An order that is otherwise in order encodes exactly when 40=1, or 40=2 with 44, or 40=3 with 99, or 40=4 with both. |
| FixRules.OrderTypeDecidesOnWire | open-core/src/secure_eval_wrapper/fix/codec.py:46-50 | The decoder takes it in exactly the same cases. |
| FixRules.LeavingOut | open-core/src/secure_eval_wrapper/fix/codec.py:12-32 | Leaving a tag out of a message that encodes makes it fail exactly when its type must carry the tag or its order type needs it as a price. |
| FixRules.SentInOrder | open-core/src/secure_eval_wrapper/fix/codec.py:65-73 | An encoded message reads, item by item, as version, length, header in its order, fields in the order of their places, extensions by tag, and checksum. |
| FixRules.TypeCodes | open-core/src/secure_eval_wrapper/fix/models.py:37-49 | The message type codes, each with its type, and no others. |
| FixRules.DecimalLaw | open-core/src/secure_eval_wrapper/fix/codec.py:37-40 | A value is a finite decimal exactly when, without outer blanks and underscores, it is a sign or none, digits with a point or none, and an exponent or none. |
| FixDecoder.ReadPairs | open-core/src/secure_eval_wrapper/fix/codec.py:79-86 | The field loop reads every item, or raises the first item's error. |
| FixDecoder.CheckDuplicates | open-core/src/secure_eval_wrapper/fix/codec.py:87-90 | The set loop finds exactly the repeated tags. |
| FixDecoder.ValidateFields | open-core/src/secure_eval_wrapper/fix/codec.py:30-61 | The validation loops accept exactly the valid field maps. |
| FixDecoder.DecodeMessage | open-core/src/secure_eval_wrapper/fix/codec.py:74-113 | The imperative decoder equals the decoding function, errors included. |
| BackwardPages.TakePage | open-core/src/secure_eval_wrapper/data_collection/okx_public.py:226-272 | The row loop keeps exactly the rows of the window, raises no duplicate, and finds the oldest time. |
| BackwardPages.FetchBackward | open-core/src/secure_eval_wrapper/data_collection/okx_v5_public.py:166-280 | The loop of all three OKX adapters: no duplicate and no stuck-cursor error can occur, and the result is the sorted window part of the pages fetched, or the page guard. |
| BackwardPages.DistinctTimesFetchAll | open-core/src/secure_eval_wrapper/data_collection/okx_v5_public.py:223-280 | With distinct times (candles, funding) every record of the window is returned once, and the page guard fires exactly when max_pages full pages do not reach the start. |
| BackwardPages.WantedIsInOrder | open-core/src/secure_eval_wrapper/data_collection/okx_public.py:284-287 | Those records come back in time order. |
| BackwardPages.WantedLaw | open-core/src/secure_eval_wrapper/data_collection/okx_public.py:226-240 | The records asked for are those of the history with start <= time < end, each as often as it is there. |
| BackwardPages.ByTimeLaw | open-core/src/secure_eval_wrapper/data_collection/okx_v5_public.py:221-221 | The final sort puts rows in the order of their times, rows of one time in that of their tie-break. |
| BackwardPages.GuardLaw | open-core/src/secure_eval_wrapper/data_collection/okx_v5_public.py:212-220 | On any history the only failure is the page guard, and it fires exactly when the last of max_pages pages is full and still starts after the window's start. |
| BackwardPages.TradesFetchAllUnlessSplit | open-core/src/secure_eval_wrapper/data_collection/okx_v5_public.py:166-221 | OKX trades: whatever the page boundaries, a fetch that succeeds returns no trade twice and none from outside the window, and it returns all of them if and only if no page boundary splits a millisecond. |
| BackwardPages.SplitMillisecondLosesATrade | open-core/src/secure_eval_wrapper/data_collection/okx_v5_public.py:212-220 | Counterexample: two trades of one millisecond and pages of one row; the older trade is lost without an error. |
| ForwardPages.FetchFunding | open-core/src/secure_eval_wrapper/data_collection/binance_usdm.py:137-202 | Binance funding: no duplicate and no stuck-cursor error can occur; the loop returns the sorted walk through the window, or the page guard. |
| ForwardPages.FundingFetchesAll | open-core/src/secure_eval_wrapper/data_collection/binance_usdm.py:65-75 | Every funding record of [start, end) once, in order, with the guard firing exactly when max_pages full pages do not reach the end. |
| ForwardPages.WindowSpan | open-core/src/secure_eval_wrapper/data_collection/binance_public.py:65-73 | The millisecond boundaries, ceiling of the start and floor before the end, select exactly the records of the half-open window. |
| ForwardPages.FetchAggTrades | open-core/src/secure_eval_wrapper/data_collection/binance_public.py:125-195 | Aggregate trades: first page by time, the rest by id; no duplicate and no stuck-cursor error can occur. |
| ForwardPages.AggTradesFetchAll | open-core/src/secure_eval_wrapper/data_collection/binance_public.py:125-195 | With times nondecreasing in id every trade of [start, end) is returned once, with the guard firing exactly when max_pages full pages do not reach the end. |
| Fetches.FetchCandles | open-core/src/secure_eval_wrapper/data_collection/okx_public.py:188-287 | OKX candles, end to end: the window's records in order, or the page guard exactly when max_pages is too small. |
| Fetches.FetchFundingHistory | open-core/src/secure_eval_wrapper/data_collection/okx_v5_public.py:223-280 | OKX funding, end to end: the same. |
| Fetches.FetchTradeHistory | open-core/src/secure_eval_wrapper/data_collection/okx_v5_public.py:166-221 | OKX trades, end to end: a sorted part of the window without repeats, all of it if and only if no millisecond is split, or the page guard exactly in its case. |
| Fetches.FetchFundingRates | open-core/src/secure_eval_wrapper/data_collection/binance_usdm.py:137-202 | Binance funding, end to end: the window's records in order, or the page guard exactly when max_pages is too small. |
| Fetches.FetchAggregateTrades | open-core/src/secure_eval_wrapper/data_collection/binance_public.py:125-195 | Binance aggregate trades, end to end: the window's trades sorted by time, or the page guard exactly when max_pages is too small. |
| Alpha.EligibleIsPast | open-core/src/secure_eval_wrapper/alpha/input_validation.py:135-143 | The as-of series equals the series built from only the records available by then. |
| Alpha.PrepareLaw | open-core/src/secure_eval_wrapper/alpha/input_validation.py:88-115 | A series can be prepared exactly when it has a record, its funding rates are all grounded, and no two of its records became available together or, for bars, opened together. |
| Alpha.ValueIsLatest | open-core/src/secure_eval_wrapper/alpha/engine.py:79-109 | An as-of request answers with the alpha's last point for the records known by then in order of availability: it has an answer if and only if there is a point for each, the last is dated by the last record and uses no later source, and as-of lies in the window; score, source span and hashed rows are those of that point and those records. |
| Alpha.LatestOfKnown | open-core/src/secure_eval_wrapper/alpha/engine.py:86-92 | That last record became available at the latest time not after as-of among the series' records. |
| Alpha.EachIsAnswered | open-core/src/secure_eval_wrapper/alpha/engine.py:75-151 | Over distinct series every answer is among the values and every failure among the failures, and nothing else. |
| Alpha.RepeatFails | open-core/src/secure_eval_wrapper/alpha/engine.py:98-101 | A series asked for again after it has answered adds a duplicate-identity failure and nothing else. |
| Alpha.EligibleSeriesIsFixed | open-core/src/secure_eval_wrapper/alpha/identity.py:174-189 | Datasets with the same records available by as-of give the same eligible series and the same hashed rows. |
| Alpha.FutureCannotChangePast | open-core/src/secure_eval_wrapper/alpha/engine.py:77-109 | Score, hashed inputs (and so value identity) and lookback of an as-of value, or its failure, are the same for any two datasets with the same past whose series can be prepared or are absent, for any alpha. |
| Alpha.FutureCannotChangeRun | open-core/src/secure_eval_wrapper/alpha/engine.py:75-151 | So are the whole lists of values and failures over all series. |
| Alpha.FutureSeriesAddNoValue | open-core/src/secure_eval_wrapper/alpha/input_validation.py:177-189 | When the series are resolved from the dataset, those known only later add failures of their own and leave every value, and every failure of a series with a past, as it was. |
| Alpha.PastDecides | open-core/src/secure_eval_wrapper/alpha/input_validation.py:88-143 | An answer that the past alone gives is kept by a larger dataset if and only if the series' records, later ones included, are admissible and repeat no availability or open time. |
| Alpha.LaterRepeatFailsPast | open-core/src/secure_eval_wrapper/alpha/input_validation.py:108-111 | Counterexample: two later bars of one availability time make an as-of evaluation fail that succeeds without them. |
| Alpha.PermutationIrrelevant | open-core/src/secure_eval_wrapper/alpha/input_validation.py:71-82 | Permuting a dataset changes neither its hashed rows nor any series prepared from it, nor the reason a series is refused. |
| Alpha.Evaluate | open-core/src/secure_eval_wrapper/alpha/engine.py:75-151 | The loop over identities, with its duplicate-identity set, returns exactly the values and failures specified. |
| Gaps.OpensLaw | open-core/src/secure_eval_wrapper/data_validation/ohlcv.py:226-229 | The ordered open times are strictly rising and are the members of the input. |
| Gaps.GapsAreExact | open-core/src/secure_eval_wrapper/data_validation/ohlcv.py:230-237 | On one grid the per-gap counts sum to (last - first)/interval + 1 less the number of distinct times. |
| Gaps.MissingBarsAreExact | open-core/src/secure_eval_wrapper/data_validation/ohlcv.py:214-255 | The same for any input list, in any order and with duplicates, between its own earliest and latest time. |
| Gaps.InputOrderIrrelevant | open-core/src/secure_eval_wrapper/data_validation/ohlcv.py:226-237 | The count depends only on which open times occur. |
| Gaps.MissingBars | open-core/src/secure_eval_wrapper/data_validation/ohlcv.py:223-237 | The loop over neighbours computes that sum. |
| Reconciliation.TableLaw | open-core/src/secure_eval_wrapper/data_validation/reconciliation.py:295-300 | A provider's bar stands in the table at its open time if and only if that provider reported it. |
| Reconciliation.OrderIrrelevant | open-core/src/secure_eval_wrapper/data_validation/reconciliation.py:215-300 | Datasets in another order, each with its bars in another order, are accepted alike and give the same table and the same counts. |
| Reconciliation.TableCounts | open-core/src/secure_eval_wrapper/data_validation/reconciliation.py:295-300 | The table holds as many entries as there are bars. |
| Reconciliation.CountsBalance | open-core/src/secure_eval_wrapper/data_validation/reconciliation.py:699-714 | Missing count plus total bars is providers times timestamps, and compared plus extra is timestamps, for any number of providers. |
| Reconciliation.CountsMean | open-core/src/secure_eval_wrapper/data_validation/reconciliation.py:354-382 | The counts count the timestamps reported at all, those that at least two providers report, and those that one alone reports. |
| Reconciliation.PrepareDatasets | open-core/src/secure_eval_wrapper/data_validation/reconciliation.py:201-324 | The loops reject fewer than two datasets, a provider's repeated open time and an empty union, and build the table otherwise. |
| Reconciliation.CountAll | open-core/src/secure_eval_wrapper/data_validation/reconciliation.py:354-382 | The loop over timestamps computes the missing, extra and compared counts. |
| Faults.FirstDueLaw | open-core/src/secure_eval_wrapper/fix/faults.py:24-26 | The first due fault is the earliest in schedule order that is due, of the kind and not yet activated, if there is one. |
| Faults.CallLaw | open-core/src/secure_eval_wrapper/fix/faults.py:64-152 | What each call does: the first fault of the kind in schedule order whose time has come and that has not been activated is activated and logged, or nothing is; reports given to the delay step are held back for that fault's delay, or come straight back; a release hands back exactly the reports that are due and keeps the other entries. |
| Faults.FaultsActivateOnce | open-core/src/secure_eval_wrapper/fix/faults.py:28-39 | Over any sequence of calls every fault is activated at most once and never before its scheduled time. |
| Faults.ReportsAreConserved | open-core/src/secure_eval_wrapper/fix/faults.py:133-152 | Over any sequence of calls the reports given to the delay step are, as a multiset, those handed back plus those still queued. |
| Faults.OnlyDueIsReleased | open-core/src/secure_eval_wrapper/fix/faults.py:143-152 | A release hands back only reports that are due, and keeps exactly the entries that are not. |
| Faults.DeadlinesHold | open-core/src/secure_eval_wrapper/fix/faults.py:133-141 | Every queued entry is due at the activation time of a delay fault plus its configured delay. |
| Faults.NeverReleasedEarly | open-core/src/secure_eval_wrapper/fix/faults.py:133-152 | In any sequence of calls a released report was given to an earlier delay step, at least a delay fault's configured delay before. |
| Faults.FaultOrchestrator.ActivateOne | open-core/src/secure_eval_wrapper/fix/faults.py:64-86 | Activates and logs the first due fault of a kind, or nothing. |
| Faults.FaultOrchestrator.BeforeInbound | open-core/src/secure_eval_wrapper/fix/faults.py:88-108 | The drop, gap and duplicate faults in that order, each with its effect on the message and the pending flag. |
| Faults.FaultOrchestrator.DelayReports | open-core/src/secure_eval_wrapper/fix/faults.py:133-141 | Queues the reports until their deadline or hands them back at once. |
| Faults.FaultOrchestrator.ReleaseDelayed | open-core/src/secure_eval_wrapper/fix/faults.py:143-152 | The splitting loop hands back what is due and keeps the rest in order. |

## Left out

- Decimal arithmetic: amounts are real numbers, so rounding to 28 digits (which would show in the divisions of
  `execution/positions.py` and the closing fee of `backtesting/metrics.py`), non-finite values and traps are not modelled.
- Hashes and UUIDs: identities are numbers. Content hashes of bars and rates are arbitrary functions, equal keys are
  handled as the code does, and one series per digest is assumed of the bars.
- BacktestRun.EventLoop.RecordEvent: rows keep sequence, time, priority, kind and series, not payload hash, parent and metadata.
- BacktestRun.RunBacktest: result records, metric rows and persistence are not modelled, and initial cash is taken to be non-negative, the constructor's own check.
- The broker passes its order's intent to the risk check directly, where the code looks it up by id, and the check's
  order id is not passed on. `RiskGuard` rules and the paper and live brokers are not modelled.
- SimulatedBroker.SimulatedConforms: the broker's order history, provenance and fill reasons are not modelled, and orders carry their intents.
- Metrics.CalculateMetrics: turnover, win rate, profit factor, counts, total return, the drawdown fraction and the metric records are not modelled.
- FundingTimes.NothingLostBetweenCloses: the funding times are kept apart from the closes of all bars, not only those of their own instrument, because a broker of the run theorems may label its fills with any series of the right digest.
- FIX text: years are printed with four digits on every platform, and the interpreter's limit on integer digits and on
  decimal exponents does not apply. Error messages are collapsed to kinds. Session, gateway and message ids are not modelled.
- HTTP, JSON, row parsing, clocks, request validation and raw observations are not modelled: a server is a function
  from a cursor to a page, of a history that does not change between pages.
- BackwardPages.FetchBackward: the three OKX loops are one method with the adapters' differences as parameters.
- Alpha.Evaluate: evaluation without an as-of time, fail-fast, registry lookup, the final sort of values and the run status are not modelled.
- Gaps.MissingBars: one symbol, exchange and timeframe; the code adds such counts over groups. The gap list and affected observations are not modelled.
- Reconciliation.PrepareDatasets: provider names are numbers, so their trimming and case folding, and the checks for mixed symbols, timeframes and exchanges and for well-formed records, are not modelled.
- Price, volume and close-time comparisons of the reconciliation, tolerances, statuses and reports are not modelled.
- Faults.FaultOrchestrator.ActivateOne: the session event and the monitoring evidence are not modelled.
- Faults.FaultOrchestrator.BeforeInbound: the drop of the session is not modelled, only that the message does not pass.
- Fault effects after receipt, on heartbeats, on acknowledgements and on reconnection are not modelled.
- Instrument fetches, normalisation, pipelines, signals, live approval and the generic evaluator are not modelled.
