/** Shared value types of the ftx-ws client: frames, tickers, trades, candles,
    and the few JavaScript value conversions the core relies on. */
module Models {

  datatype Option<+T> = None | Some(value: T)

  /** A ticker as it arrives inside an `update` frame on the `ticker` channel.
      `time` is in seconds (a JavaScript number, modelled as an exact real). */
  datatype RawTicker = RawTicker(time: real, ask: int, bid: int, last: int)

  /** A ticker after normalisation by the event correlator. */
  datatype Ticker = Ticker(symbol: string, timestamp: int, high: int, low: int,
                           ask: int, bid: int, last: int, close: int)

  /** A trade: only the price and the millisecond timestamp are used by the core. */
  datatype Trade = Trade(price: int, timestamp: int)

  /** An OHLC bar. */
  datatype Candle = Candle(symbol: string, open: int, high: int, low: int, close: int, timestamp: int)

  /** An inbound frame `{type, channel?, market?, msg?, data?}`. */
  datatype MessageData = MessageData(frameType: string, channel: Option<string>, market: Option<string>,
                                     msg: string, data: Option<RawTicker>)

  /** JavaScript truthiness of an optional string field (`undefined` and `""` are falsy). */
  predicate Truthy(s: Option<string>)
  {
    s.Some? && s.value != ""
  }

  /** The property name JavaScript uses when an optional string indexes an object. */
  function PropertyName(s: Option<string>): string
  {
    if s.Some? then s.value else "undefined"
  }

  /** `symbol.replace('-', '/')`: only the FIRST '-' is replaced. */
  function FormatSymbol(s: string): (r: string)
    ensures |r| == |s|
    ensures '-' !in s <==> r == s
    ensures '-' !in r[..FirstDash(s)]
    ensures forall i :: 0 <= i < |s| && i != FirstDash(s) ==> r[i] == s[i]
    ensures FirstDash(s) < |s| ==> r[FirstDash(s)] == '/'
  {
    if s == [] then []
    else if s[0] == '-' then ['/'] + s[1..]
    else [s[0]] + FormatSymbol(s[1..])
  }

  /** Index of the first '-' in `s`, or `|s|` when there is none. */
  function FirstDash(s: string): (k: nat)
    ensures k <= |s|
    ensures k < |s| <==> '-' in s
    ensures k < |s| ==> s[k] == '-'
    ensures '-' !in s[..k]
  {
    if s == [] then 0
    else if s[0] == '-' then 0
    else assert s[1..][..FirstDash(s[1..])] == s[1..1 + FirstDash(s[1..])];
         1 + FirstDash(s[1..])
  }

  /** `Math.trunc(x)` on an exact real. */
  function TruncReal(x: real): (r: int)
    ensures x >= 0.0 ==> r as real <= x < r as real + 1.0
    ensures x < 0.0 ==> r as real - 1.0 < x <= r as real
  {
    if x >= 0.0 then x.Floor else -((-x).Floor)
  }

  /** `Math.trunc(a / b)` for a positive divisor: rounds toward zero. */
  function TruncDiv(a: int, b: nat): (q: int)
    requires b > 0
    ensures a >= 0 ==> q == a / b
    ensures a < 0 ==> q == -((-a) / b)
  {
    if a >= 0 then a / b else -((-a) / b)
  }
}
