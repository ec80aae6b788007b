/**
 Market data and signal records of the bot (src/core/models.py).
 Prices are ideal reals; the human-readable `reason` of a signal is not modelled.
 */
module Models {

  /** Direction suggested by the analyzer. */
  datatype SignalType = Long | Short | NoSignal

  /** A trading signal: its direction, the pair it is about and the price it refers to. */
  datatype Signal = Signal(kind: SignalType, symbol: string, price: real)

  /** One OHLCV candle; `timestamp` is an abstract instant. */
  datatype Candle = Candle(
    timestamp: int,
    open: real,
    high: real,
    low: real,
    close: real,
    volume: real
  )
}
