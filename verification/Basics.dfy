/** Values shared by every part of the model: candles, raw bars, ticks.

    Prices are exact reals.  A time is a whole number of microseconds counted from some
    midnight in Indian Standard Time; IST is a fixed offset, so every multiple of
    `Buckets.DAY` is a midnight.
 */
module Basics {

  datatype Option<+T> = None | Some(value: T)

  function Max(a: real, b: real): real { if a >= b then a else b }

  function Min(a: real, b: real): real { if a <= b then a else b }

  function Abs(a: real): real { if a >= 0.0 then a else -a }

  /** A candle as a value; `LiveCandle` in module Aggregator is the object updated in place. */
  datatype Candle = Candle(
    instrument: string, timeframe: int, openTime: int,
    open: real, high: real, low: real, close: real, tickCount: nat)

  /** Opens and closes within its own range. */
  predicate WellFormed(c: Candle) {
    c.low <= c.open <= c.high && c.low <= c.close <= c.high
  }

  /** One row of a broker's historical data. */
  datatype Bar = Bar(time: int, open: real, high: real, low: real, close: real, volume: real)

  datatype Tick = Tick(time: int, price: real)

  function Last<T>(s: seq<T>): T
    requires s != []
  {
    s[|s| - 1]
  }

  function Front<T>(s: seq<T>): seq<T>
    requires s != []
  {
    s[..|s| - 1]
  }

  /** The last `n` elements of `s`, or all of them: the slice `s[-n:]`. */
  function Suffix<T>(s: seq<T>, n: nat): seq<T> {
    if |s| <= n then s else s[|s| - n..]
  }
}
