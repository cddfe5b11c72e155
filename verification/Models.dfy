/** The immutable records exchanged by execution and backtesting.  A constructor's checks are a
    `Valid…` predicate; exact decimals are `real`; an instant is a count of microseconds. */
module Models {
  import opened Results

  type Uuid = nat
  type Digest = nat
  type Time = int

  datatype Mode = Spot | LinearPerpetual
  datatype Side = Buy | Sell
  datatype InstrumentKind = SpotPair | PerpetualSwap | OtherKind
  datatype MarkSource = BarOpen | BarClose
  datatype SnapshotKind = FillSnapshot | OpenMarkSnapshot | CloseMarkSnapshot
  datatype EntryType = InitialCash | SpotNotional | RealizedPnl | Fee | Funding

  datatype Error =
    | DuplicateFill | SeriesMismatch | ModeMismatch | NegativeSpot | FeeCurrencyMismatch
    | BadMark | NegativeMarkAge | UngroundedInterval | UnmarkedSignal | UnsupportedInstrument
    | NoBars | InvalidBar | DuplicateEvent | UnknownSeries | EarlySignal | WrongCurrency
    | BadReference | BadIntent | BadDrawdown | BrokerRaised | NoEquityCurve | PnlMismatch | MissingFill

  /** Everything `_same_instrument` compares: a series identity without its timeframe. */
  datatype Instrument = Instrument(provider: string, exchange: string, instrumentId: string,
                                   symbol: string, kind: InstrumentKind, settlement: Option<string>)

  /** `digest` is the series' SHA-256, read as a number so that it can be ordered. */
  datatype Series = Series(digest: Digest, instrument: Instrument, timeframe: string)

  datatype Fill = Fill(id: Uuid, series: Series, filledAt: Time, side: Side, quantity: real, price: real,
                       mode: Mode, fee: real, feeCurrency: string)

  predicate ValidFill(f: Fill) {
    f.quantity > 0.0 && f.price > 0.0 && f.fee >= 0.0
  }

  function Sign(side: Side): real {
    if side == Buy then 1.0 else -1.0
  }

  function Signed(f: Fill): (signed: real)
    ensures signed == if f.side == Buy then f.quantity else -f.quantity
  {
    f.quantity * Sign(f.side)
  }

  datatype PositionState = PositionState(series: Series, mode: Mode, quantity: real, average: Option<real>,
                                         realized: real, updatedAt: Time, sourceFills: seq<Uuid>)

  predicate ValidPosition(p: PositionState) {
    && (p.average.Some? ==> p.average.value > 0.0)
    && (p.quantity == 0.0 <==> p.average.None?)
    && (p.mode == Spot ==> p.quantity >= 0.0)
  }

  function Abs(x: real): real {
    if x < 0.0 then -x else x
  }

  function Min(x: real, y: real): real {
    if x <= y then x else y
  }

  function Max(x: real, y: real): real {
    if x >= y then x else y
  }

  datatype Mark = Mark(price: real, at: Time, source: MarkSource)

  datatype LedgerRow = LedgerRow(at: Time, entry: EntryType, amount: real, balanceAfter: real, sequence: nat,
                                 series: Option<Digest>, fillId: Option<Uuid>)

  datatype PositionSnapshot = PositionSnapshot(series: Series, at: Time, quantity: real, average: Option<real>,
                                               mark: Option<real>, realized: real, unrealized: real,
                                               markAge: Option<Time>, kind: SnapshotKind,
                                               markSource: Option<MarkSource>, sequence: nat, fillId: Option<Uuid>)

  datatype AccountSnapshot = AccountSnapshot(at: Time, cash: real, equity: real, gross: real, net: real,
                                             realized: real, unrealized: real, fees: real, funding: real,
                                             staleMarks: nat)

  datatype FundingPayment = FundingPayment(series: Series, at: Time, quantity: real, mark: real, rate: real,
                                           cashFlow: real)
}
