/** The value types shared by the account, the strategies and the engine. */
module Types {

  /** One OHLCV sample. Timestamps are integers (Unix nanoseconds). */
  datatype Bar = Bar(timestamp: int, open: real, high: real, low: real, close: real, volume: real)

  /** The Action and Type string constants of a signal. */
  const BUY: string := "BUY"
  const SELL: string := "SELL"
  const OPEN: string := "OPEN_TRADE"

  /** A strategy's request to open a position. Action and type are free-form
      strings, as in the source, so that unknown values can be modelled. */
  datatype Signal = Signal(signalType: string, action: string, price: real, tp: real, sl: real, size: real)
}
