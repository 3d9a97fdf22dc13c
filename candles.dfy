/** The bucketing arithmetic and the OHLC fold that both candle emulators
    (the trade-driven one and the ticker-driven one) share. */
module Candles {
  import opened Models

  /** `Math.trunc(timestamp / intervalMs)`: the bucket a timestamp falls in. */
  function Bucket(timestamp: int, intervalMs: nat): int
    requires intervalMs > 0
  {
    TruncDiv(timestamp, intervalMs)
  }

  /** For non-negative timestamps the bucket is the interval-aligned window
      `[b * intervalMs, (b + 1) * intervalMs)` that holds the timestamp. */
  lemma BucketWindow(timestamp: int, intervalMs: nat)
    requires intervalMs > 0 && timestamp >= 0
    ensures Bucket(timestamp, intervalMs) * intervalMs <= timestamp < (Bucket(timestamp, intervalMs) + 1) * intervalMs
  {
    var q := timestamp / intervalMs;
    var r := timestamp % intervalMs;
    assert timestamp == q * intervalMs + r;
    assert (q + 1) * intervalMs == q * intervalMs + intervalMs;
  }

  /** The empty candle `resetCurrentCandle` builds (`timestamp` is the clock). */
  function ZeroCandle(symbol: string, now: int): Candle
  {
    Candle(symbol, 0, 0, 0, 0, now)
  }

  function Max(a: int, b: int): int { if a >= b then a else b }
  function Min(a: int, b: int): int { if a <= b then a else b }

  /** `updateCurrentCandle`: folds one observation into the candle. The
      trade-driven emulator passes the trade price as `high`, `low` and
      `last`; the ticker-driven one passes the ticker's high, low and last.
      A zero `low` or `open` counts as unset (JavaScript falsiness). */
  function Fold(c: Candle, high: int, low: int, last: int, timestamp: int): (r: Candle)
    ensures r.high >= c.high && r.high >= high && (r.high == c.high || r.high == high)
    ensures c.low == 0 ==> r.low == low
    ensures c.low != 0 ==> r.low <= c.low && r.low <= low && (r.low == c.low || r.low == low)
    ensures c.open == 0 ==> r.open == last
    ensures c.open != 0 ==> r.open == c.open
    ensures r.close == last && r.timestamp == timestamp && r.symbol == c.symbol
  {
    c.(high := Max(high, c.high),
       low := if c.low == 0 then low else Min(low, c.low),
       open := if c.open == 0 then last else c.open,
       close := last,
       timestamp := timestamp)
  }

  /** The state of one emulator: the in-progress candle, the last bucket index
      (`timestampDivider`, unset until the first event) and the candles
      published so far on `candle-{symbol}-{interval}`. */
  datatype Emulation = Emulation(candle: Candle, divider: Option<int>, emitted: seq<Candle>)

  /** One event that falls in `bucket`: when the bucket index differs from the
      previous one (`!==`, so an unset index or an earlier bucket count too),
      publish the in-progress candle and restart from the zero candle; then fold. */
  function Advance(e: Emulation, symbol: string, now: int, bucket: int,
                   high: int, low: int, last: int, timestamp: int): Emulation
  {
    var crossed := e.divider != Some(bucket);
    var base := if crossed then ZeroCandle(symbol, now) else e.candle;
    Emulation(Fold(base, high, low, last, timestamp), Some(bucket),
              if crossed then e.emitted + [e.candle] else e.emitted)
  }

  /** A candle is published exactly when the bucket index changes, and what
      is published is the candle as it stood before the event. */
  lemma AdvanceEmitsIffBucketChanges(e: Emulation, symbol: string, now: int, bucket: int,
                                     high: int, low: int, last: int, timestamp: int)
    ensures var r := Advance(e, symbol, now, bucket, high, low, last, timestamp);
            && r.divider == Some(bucket)
            && (e.divider != Some(bucket) <==> |r.emitted| == |e.emitted| + 1)
            && (e.divider != Some(bucket) ==> r.emitted == e.emitted + [e.candle])
            && (e.divider == Some(bucket) ==> r.emitted == e.emitted)
  {
  }

  /** A candle that is either the zero candle or a consistent bar with a
      positive low: low <= open <= high and low <= close <= high. */
  predicate WellFormed(c: Candle)
  {
    || (c.open == 0 && c.high == 0 && c.low == 0 && c.close == 0)
    || (0 < c.low <= c.open <= c.high && c.low <= c.close <= c.high)
  }

  /** Folding an observation whose low, last and high are ordered and positive
      keeps a candle well formed. */
  lemma FoldKeepsWellFormed(c: Candle, high: int, low: int, last: int, timestamp: int)
    requires WellFormed(c)
    requires 0 < low <= last <= high
    ensures WellFormed(Fold(c, high, low, last, timestamp))
  {
  }

  /** Advancing with such an observation keeps the in-progress candle well
      formed and publishes only well-formed candles. */
  lemma AdvanceKeepsWellFormed(e: Emulation, symbol: string, now: int, bucket: int,
                               high: int, low: int, last: int, timestamp: int)
    requires WellFormed(e.candle) && forall i :: 0 <= i < |e.emitted| ==> WellFormed(e.emitted[i])
    requires 0 < low <= last <= high
    ensures var r := Advance(e, symbol, now, bucket, high, low, last, timestamp);
            WellFormed(r.candle) && forall i :: 0 <= i < |r.emitted| ==> WellFormed(r.emitted[i])
  {
    var crossed := e.divider != Some(bucket);
    var base := if crossed then ZeroCandle(symbol, now) else e.candle;
    FoldKeepsWellFormed(base, high, low, last, timestamp);
  }
}
