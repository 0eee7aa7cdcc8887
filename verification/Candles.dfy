/** One bar of a price series. */
module Candles {
  datatype Candle = Candle(symbol: string, timeframe: string, ts: int, o: real, h: real, low: real, c: real)

  /** The close lies within the bar. */
  predicate WellFormedBar(c: Candle) {
    c.low <= c.c <= c.h
  }

  predicate WellFormedSeries(cs: seq<Candle>) {
    forall i :: 0 <= i < |cs| ==> WellFormedBar(cs[i])
  }
}
