/**
 * The records of src/backtest/backtest_engine.py: an open position, a closed
 * trade, a point of the equity curve, the price table the engine reads and
 * the results it returns. Dates are day numbers.
 */
module BacktestRecords {
  import opened Analyzer

  type Day = int

  /** Why a position was closed: 'target', 'stop_loss', 'time' or 'signal'. */
  datatype ExitReason = Target | StopLoss | TimeLimit | SellSignal

  /**
   * One entry of the holdings dictionary. `expectedReturn` and `stopLoss` are
   * percentages; `targetDays` is the suggested holding period.
   */
  datatype Holding = Holding(
    stock: StockId,
    shares: int,
    entryPrice: real,
    entryDay: Day,
    grade: Grade,
    expectedReturn: real,
    stopLoss: real,
    targetDays: int)

  /** A closed position (the Trade dataclass). */
  datatype Trade = Trade(
    stock: StockId,
    entryDay: Day,
    exitDay: Day,
    entryPrice: real,
    exitPrice: real,
    shares: int,
    signalType: SignalType,
    grade: Grade,
    expectedReturn: real,
    stopLoss: real,
    pnl: real,
    pnlPct: real,
    exitReason: ExitReason,
    holdingDays: int)

  datatype EquityPoint = EquityPoint(day: Day, value: real)

  /**
   * The close-price table: its columns, and for every date of its index the
   * cells that hold a number (a column absent from a row is a NaN cell).
   * As in a pandas frame, every row's keys are meant to be among the columns.
   */
  datatype PriceData = PriceData(columns: set<StockId>, rows: map<Day, map<StockId, real>>)

  /** A table with no rows or no columns. */
  predicate IsEmpty(data: PriceData) {
    data.columns == {} || data.rows == map[]
  }

  /** The results record (the Sharpe ratio is not part of this model). */
  datatype BacktestResults = BacktestResults(
    startDay: Day,
    endDay: Day,
    initialCapital: real,
    finalCapital: real,
    totalTrades: nat,
    winningTrades: nat,
    losingTrades: nat,
    winRate: real,
    totalReturn: real,
    annualReturn: real,
    maxDrawdown: real,
    trades: seq<Trade>,
    equityCurve: seq<EquityPoint>)
}
