/** The ticker-driven candle emulator of the compiled build: it listens to the
    internal `ticker-{symbol}` feed; high and low come from the ticker's high
    and low (which the correlator took from ask and bid), open and close from
    its last price. */
module TickerCandleEmulator {
  import opened Models
  import opened Candles

  /** `processNextTicker` as a function of the emulation state. */
  function TickerStep(e: Emulation, symbol: string, intervalMs: nat, now: int, t: Ticker): Emulation
    requires intervalMs > 0
  {
    Advance(e, symbol, now, Bucket(t.timestamp, intervalMs), t.high, t.low, t.last, t.timestamp)
  }

  /** A ticker publishes exactly when its bucket index differs from the previous
      one; the first ticker after launch (index unset) always publishes. */
  lemma TickerEmitsIffBucketChanges(e: Emulation, symbol: string, intervalMs: nat, now: int, t: Ticker)
    requires intervalMs > 0
    ensures var r := TickerStep(e, symbol, intervalMs, now, t);
            && r.divider == Some(Bucket(t.timestamp, intervalMs))
            && (e.divider != Some(Bucket(t.timestamp, intervalMs)) <==> r.emitted == e.emitted + [e.candle])
            && (e.divider == Some(Bucket(t.timestamp, intervalMs)) <==> r.emitted == e.emitted)
            && (e.divider.None? ==> r.emitted == e.emitted + [e.candle])
  {
    AdvanceEmitsIffBucketChanges(e, symbol, now, Bucket(t.timestamp, intervalMs), t.high, t.low, t.last, t.timestamp);
  }

  /** How the candle is updated, relative to the candle the ticker is folded
      into (the current one, or the zero candle after a bucket change):
      high is the larger of the two highs; low takes the ticker's low while
      unset and the smaller one afterwards; open takes last only while unset;
      close and timestamp are the ticker's. */
  lemma TickerFoldFields(e: Emulation, symbol: string, intervalMs: nat, now: int, t: Ticker)
    requires intervalMs > 0
    ensures var base := if e.divider != Some(Bucket(t.timestamp, intervalMs)) then ZeroCandle(symbol, now) else e.candle;
            var c := TickerStep(e, symbol, intervalMs, now, t).candle;
            && c.high == Max(t.high, base.high)
            && c.low == (if base.low == 0 then t.low else Min(t.low, base.low))
            && c.open == (if base.open == 0 then t.last else base.open)
            && c.close == t.last && c.timestamp == t.timestamp
  {
  }

  /** With tickers whose low <= last <= high are positive, the in-progress and
      the published candles stay consistent bars. */
  lemma TickersKeepCandlesWellFormed(e: Emulation, symbol: string, intervalMs: nat, now: int, t: Ticker)
    requires intervalMs > 0
    requires WellFormed(e.candle) && forall i :: 0 <= i < |e.emitted| ==> WellFormed(e.emitted[i])
    requires 0 < t.low <= t.last <= t.high
    ensures var r := TickerStep(e, symbol, intervalMs, now, t);
            WellFormed(r.candle) && forall i :: 0 <= i < |r.emitted| ==> WellFormed(r.emitted[i])
  {
    AdvanceKeepsWellFormed(e, symbol, now, Bucket(t.timestamp, intervalMs), t.high, t.low, t.last, t.timestamp);
  }

  /** The emulator object of the compiled `candle-emulator.js`. */
  class CandleEmulator {
    const symbol: string
    const interval: string
    const intervalMs: nat
    var currentCandle: Candle
    var timestampDivider: Option<int>
    var launched: bool
    var listening: bool
    var emitted: seq<Candle>

    ghost predicate Valid()
      reads this
    {
      intervalMs > 0 && (listening ==> launched)
    }

    function State(): Emulation
      reads this
    {
      Emulation(currentCandle, timestampDivider, emitted)
    }

    constructor (symbol: string, interval: string, intervalMs: nat, now: int)
      requires intervalMs > 0
      ensures Valid() && this.symbol == symbol && this.interval == interval && this.intervalMs == intervalMs
      ensures currentCandle == ZeroCandle(symbol, now) && timestampDivider.None?
      ensures !launched && !listening && emitted == []
    {
      this.symbol := symbol;
      this.interval := interval;
      this.intervalMs := intervalMs;
      currentCandle := ZeroCandle(symbol, now);
      timestampDivider := None;
      launched := false;
      listening := false;
      emitted := [];
    }

    /** `launch`: a fetched seed replaces the zero candle built by the
        constructor; without one the zero candle stays. */
    method Launch(seed: Option<Candle>)
      requires Valid()
      modifies this
      ensures Valid() && launched && listening
      ensures currentCandle == (if seed.Some? then seed.value else old(currentCandle))
      ensures timestampDivider == old(timestampDivider) && emitted == old(emitted)
    {
      if seed.Some? {
        currentCandle := seed.value;
      }
      launched := true;
      listening := true;
    }

    /** `reset`: the unsubscribe function exists only once launch has completed. */
    method Reset()
      requires Valid() && launched
      modifies this
      ensures Valid() && !listening && launched
      ensures State() == old(State())
    {
      listening := false;
    }

    method ResetCurrentCandle(now: int)
      modifies this`currentCandle
      ensures currentCandle == ZeroCandle(symbol, now)
    {
      currentCandle := Candle(symbol, 0, 0, 0, 0, now);
    }

    method UpdateCurrentCandle(t: Ticker)
      modifies this`currentCandle
      ensures currentCandle == Fold(old(currentCandle), t.high, t.low, t.last, t.timestamp)
    {
      currentCandle := currentCandle.(high := Max(t.high, currentCandle.high));
      currentCandle := currentCandle.(low := if currentCandle.low == 0 then t.low else Min(t.low, currentCandle.low));
      if currentCandle.open == 0 {
        currentCandle := currentCandle.(open := t.last);
      }
      currentCandle := currentCandle.(close := t.last);
      currentCandle := currentCandle.(timestamp := t.timestamp);
    }

    /** `processNextTicker`: one ticker from the internal feed. */
    method ProcessNextTicker(t: Ticker, now: int)
      requires Valid() && listening
      modifies this
      ensures Valid() && listening && launched == old(launched)
      ensures State() == TickerStep(old(State()), symbol, intervalMs, now, t)
    {
      var previous := timestampDivider;
      timestampDivider := Some(TruncDiv(t.timestamp, intervalMs));
      if timestampDivider != previous {
        emitted := emitted + [currentCandle];
        ResetCurrentCandle(now);
      }
      UpdateCurrentCandle(t);
    }
  }
}
