/** The strategy constants of src/config.py that the core reads. */
module Config {

  /** Daily margin-balance increase treated as anomalous (10%). */
  const MarginIncreaseThreshold: real := 0.10
  /** Daily short-balance increase treated as anomalous (10%). */
  const ShortIncreaseThreshold: real := 0.10

  const RsiPeriod: nat := 14
  const RsiOversold: real := 30.0
  const RsiOverbought: real := 70.0

  const MaShort: nat := 5
  const MaMedium: nat := 20
  const MaLong: nat := 60

  /** Largest single position, as a fraction of the initial capital. */
  const MaxPositionSize: real := 0.10

  /** Price band kept by the signal filter (inclusive). */
  const MinStockPrice: real := 10.0
  const MaxStockPrice: real := 500.0
}
