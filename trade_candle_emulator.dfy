/** The trade-driven candle emulator: it listens to the internal
    `trades-{symbol}` feed and cuts candles on interval-bucket changes. */
module TradeCandleEmulator {
  import opened Models
  import opened Candles

  /** One trade folded into the emulation (the body of the `forEach`). */
  function TradeStep(e: Emulation, symbol: string, intervalMs: nat, now: int, t: Trade): Emulation
    requires intervalMs > 0
  {
    Advance(e, symbol, now, Bucket(t.timestamp, intervalMs), t.price, t.price, t.price, t.timestamp)
  }

  /** `processNextTrades`: the trades of one batch folded left to right. */
  function ProcessTrades(e: Emulation, symbol: string, intervalMs: nat, now: int, trades: seq<Trade>): Emulation
    requires intervalMs > 0
    decreases |trades|
  {
    if trades == [] then e
    else TradeStep(ProcessTrades(e, symbol, intervalMs, now, trades[..|trades| - 1]), symbol, intervalMs, now, trades[|trades| - 1])
  }

  /** The bucket index of each trade, in order. */
  function Buckets(trades: seq<Trade>, intervalMs: nat): (bs: seq<int>)
    requires intervalMs > 0
    ensures |bs| == |trades|
    ensures forall i :: 0 <= i < |trades| ==> bs[i] == Bucket(trades[i].timestamp, intervalMs)
  {
    if trades == [] then []
    else Buckets(trades[..|trades| - 1], intervalMs) + [Bucket(trades[|trades| - 1].timestamp, intervalMs)]
  }

  /** How many times a sequence of bucket indices differs from the index before
      it, starting from `previous` (the index left by earlier batches). */
  function Changes(previous: Option<int>, bs: seq<int>): nat
    decreases |bs|
  {
    if bs == [] then 0
    else
      var before := if |bs| == 1 then previous else Some(bs[|bs| - 2]);
      Changes(previous, bs[..|bs| - 1]) + (if before != Some(bs[|bs| - 1]) then 1 else 0)
  }

  /** After a non-empty batch the stored index is that of the last trade. */
  lemma {:induction false} ProcessTradesDivider(e: Emulation, symbol: string, intervalMs: nat, now: int, trades: seq<Trade>)
    requires intervalMs > 0
    ensures trades == [] ==> ProcessTrades(e, symbol, intervalMs, now, trades).divider == e.divider
    ensures trades != [] ==> ProcessTrades(e, symbol, intervalMs, now, trades).divider
                             == Some(Bucket(trades[|trades| - 1].timestamp, intervalMs))
  {
  }

  /** A batch publishes exactly one candle per change of bucket index, earlier
      publications are kept, and nothing else is published. */
  lemma {:induction false} EmitsOncePerBucketChange(e: Emulation, symbol: string, intervalMs: nat, now: int, trades: seq<Trade>)
    requires intervalMs > 0
    ensures var r := ProcessTrades(e, symbol, intervalMs, now, trades);
            |r.emitted| == |e.emitted| + Changes(e.divider, Buckets(trades, intervalMs))
            && r.emitted[..|e.emitted|] == e.emitted
  {
    if trades != [] {
      var init := trades[..|trades| - 1];
      EmitsOncePerBucketChange(e, symbol, intervalMs, now, init);
      ProcessTradesDivider(e, symbol, intervalMs, now, init);
      var mid := ProcessTrades(e, symbol, intervalMs, now, init);
      var bs := Buckets(trades, intervalMs);
      assert bs[..|bs| - 1] == Buckets(init, intervalMs);
      var t := trades[|trades| - 1];
      var b := Bucket(t.timestamp, intervalMs);
      AdvanceEmitsIffBucketChanges(mid, symbol, now, b, t.price, t.price, t.price, t.timestamp);
      var r := ProcessTrades(e, symbol, intervalMs, now, trades);
      assert r == Advance(mid, symbol, now, b, t.price, t.price, t.price, t.timestamp);
      var before := if |bs| == 1 then e.divider else Some(bs[|bs| - 2]);
      if |trades| > 1 {
        assert init[|init| - 1] == trades[|trades| - 2];
      }
      assert mid.divider == before;
      assert Changes(e.divider, bs) == Changes(e.divider, bs[..|bs| - 1]) + (if before != Some(b) then 1 else 0);
      assert r.emitted[..|mid.emitted|] == mid.emitted;
    }
  }

  /** Trades that stay in the bucket already current never publish a candle. */
  lemma {:induction false} SameBucketNeverEmits(e: Emulation, symbol: string, intervalMs: nat, now: int, trades: seq<Trade>, b: int)
    requires intervalMs > 0
    requires e.divider == Some(b)
    requires forall i :: 0 <= i < |trades| ==> Bucket(trades[i].timestamp, intervalMs) == b
    ensures ProcessTrades(e, symbol, intervalMs, now, trades).emitted == e.emitted
    ensures ProcessTrades(e, symbol, intervalMs, now, trades).divider == Some(b)
  {
    if trades != [] {
      SameBucketNeverEmits(e, symbol, intervalMs, now, trades[..|trades| - 1], b);
    }
  }

  /** The first trade after launch (index unset) always publishes the current
      candle, which is the fetched seed or the zero candle. */
  lemma FirstTradeEmitsCurrentCandle(e: Emulation, symbol: string, intervalMs: nat, now: int, t: Trade)
    requires intervalMs > 0 && e.divider.None?
    ensures TradeStep(e, symbol, intervalMs, now, t).emitted == e.emitted + [e.candle]
  {
  }

  /** A trade in an EARLIER bucket than the current one also publishes, since
      the test is an inequality and not an ordering. */
  lemma EarlierBucketAlsoEmits(e: Emulation, symbol: string, intervalMs: nat, now: int, t: Trade)
    requires intervalMs > 0 && e.divider.Some?
    requires Bucket(t.timestamp, intervalMs) < e.divider.value
    ensures TradeStep(e, symbol, intervalMs, now, t).emitted == e.emitted + [e.candle]
  {
  }

  /** The trade that crosses into a new bucket starts the new candle from
      scratch: with a positive price, open = high = low = close = price. */
  lemma CrossingTradeStartsFreshCandle(e: Emulation, symbol: string, intervalMs: nat, now: int, t: Trade)
    requires intervalMs > 0 && t.price > 0
    requires e.divider != Some(Bucket(t.timestamp, intervalMs))
    ensures var c := TradeStep(e, symbol, intervalMs, now, t).candle;
            c.open == t.price && c.high == t.price && c.low == t.price && c.close == t.price
            && c.timestamp == t.timestamp && c.symbol == symbol
  {
  }

  /** Within a bucket: high never decreases, a set low never increases, a set
      open never changes, and close and timestamp are those of the trade. */
  lemma WithinBucketMonotone(e: Emulation, symbol: string, intervalMs: nat, now: int, t: Trade)
    requires intervalMs > 0
    requires e.divider == Some(Bucket(t.timestamp, intervalMs))
    ensures var c := TradeStep(e, symbol, intervalMs, now, t).candle;
            && c.high >= e.candle.high && c.high >= t.price
            && (e.candle.low != 0 ==> c.low <= e.candle.low)
            && (e.candle.open != 0 ==> c.open == e.candle.open)
            && (e.candle.open == 0 ==> c.open == t.price)
            && c.close == t.price && c.timestamp == t.timestamp
  {
  }

  /** With positive prices the in-progress candle and every published candle
      stay consistent bars (low <= open, close <= high), from any consistent start. */
  lemma {:induction false} PositivePricesKeepCandlesWellFormed(e: Emulation, symbol: string, intervalMs: nat, now: int, trades: seq<Trade>)
    requires intervalMs > 0
    requires WellFormed(e.candle) && forall i :: 0 <= i < |e.emitted| ==> WellFormed(e.emitted[i])
    requires forall i :: 0 <= i < |trades| ==> trades[i].price > 0
    ensures var r := ProcessTrades(e, symbol, intervalMs, now, trades);
            WellFormed(r.candle) && forall i :: 0 <= i < |r.emitted| ==> WellFormed(r.emitted[i])
  {
    if trades != [] {
      var init := trades[..|trades| - 1];
      PositivePricesKeepCandlesWellFormed(e, symbol, intervalMs, now, init);
      var mid := ProcessTrades(e, symbol, intervalMs, now, init);
      var t := trades[|trades| - 1];
      AdvanceKeepsWellFormed(mid, symbol, now, Bucket(t.timestamp, intervalMs), t.price, t.price, t.price, t.timestamp);
    }
  }

  /** Trades at 0, 999, 1000, 1999 and 2000 ms with a 1000 ms interval, fed to
      a freshly launched emulator with no seed: THREE candles are published,
      because the very first trade publishes the initial zero candle; then
      bucket 0 (open 1, close 2) and bucket 1 (open 3, close 4). */
  lemma FiveTradeExample(symbol: string, now: int)
    ensures var trades := [Trade(1, 0), Trade(2, 999), Trade(3, 1000), Trade(4, 1999), Trade(5, 2000)];
            var r := ProcessTrades(Emulation(ZeroCandle(symbol, now), None, []), symbol, 1000, now, trades);
            r.emitted == [ZeroCandle(symbol, now), Candle(symbol, 1, 2, 1, 2, 999), Candle(symbol, 3, 4, 3, 4, 1999)]
            && r.candle == Candle(symbol, 5, 5, 5, 5, 2000)
  {
    var trades := [Trade(1, 0), Trade(2, 999), Trade(3, 1000), Trade(4, 1999), Trade(5, 2000)];
    var e0 := Emulation(ZeroCandle(symbol, now), None, []);
    assert trades[..1] == [Trade(1, 0)] && trades[..1][..0] == [];
    assert trades[..2][..1] == trades[..1] && trades[..3][..2] == trades[..2];
    assert trades[..4][..3] == trades[..3] && trades[..4] == trades[..|trades| - 1];
    assert ProcessTrades(e0, symbol, 1000, now, []) == e0;
    assert Bucket(0, 1000) == 0 && Bucket(999, 1000) == 0 && Bucket(1000, 1000) == 1;
    assert Bucket(1999, 1000) == 1 && Bucket(2000, 1000) == 2;
    var e1 := ProcessTrades(e0, symbol, 1000, now, trades[..1]);
    assert e1 == TradeStep(e0, symbol, 1000, now, Trade(1, 0));
    assert e1 == Emulation(Candle(symbol, 1, 1, 1, 1, 0), Some(0), [ZeroCandle(symbol, now)]);
    var e2 := ProcessTrades(e0, symbol, 1000, now, trades[..2]);
    assert e2 == Emulation(Candle(symbol, 1, 2, 1, 2, 999), Some(0), [ZeroCandle(symbol, now)]);
    var e3 := ProcessTrades(e0, symbol, 1000, now, trades[..3]);
    assert e3 == Emulation(Candle(symbol, 3, 3, 3, 3, 1000), Some(1), [ZeroCandle(symbol, now), Candle(symbol, 1, 2, 1, 2, 999)]);
    var e4 := ProcessTrades(e0, symbol, 1000, now, trades[..4]);
    assert e4.candle == Candle(symbol, 3, 4, 3, 4, 1999) && e4.divider == Some(1) && e4.emitted == e3.emitted;
  }

  /** The emulator object of `candle-emulator.ts`. `unSubFn` is modelled by
      `listening`: set once launch has subscribed, cleared by `reset`. */
  class CandleEmulator {
    const symbol: string
    const interval: string
    const intervalMs: nat
    var currentCandle: Candle
    var timestampDivider: Option<int>
    var launched: bool
    var listening: bool
    var emitted: seq<Candle>

    ghost predicate Valid()
      reads this
    {
      intervalMs > 0 && (listening ==> launched)
    }

    function State(): Emulation
      reads this
    {
      Emulation(currentCandle, timestampDivider, emitted)
    }

    /** `intervalMs` is `parseDuration(interval)`; the clock reading is `now`. */
    constructor (symbol: string, interval: string, intervalMs: nat, now: int)
      requires intervalMs > 0
      ensures Valid() && this.symbol == symbol && this.interval == interval && this.intervalMs == intervalMs
      ensures currentCandle == ZeroCandle(symbol, now) && timestampDivider.None?
      ensures !launched && !listening && emitted == []
    {
      this.symbol := symbol;
      this.interval := interval;
      this.intervalMs := intervalMs;
      currentCandle := ZeroCandle(symbol, now);
      timestampDivider := None;
      launched := false;
      listening := false;
      emitted := [];
    }

    /** `launch`: the fetched candle (if the fetch succeeded) replaces the
        current one; then the emulator starts listening. The bucket index
        stays unset, so the first trade afterwards publishes. */
    method Launch(seed: Option<Candle>)
      requires Valid()
      modifies this
      ensures Valid() && launched && listening
      ensures currentCandle == (if seed.Some? then seed.value else old(currentCandle))
      ensures timestampDivider == old(timestampDivider) && emitted == old(emitted)
    {
      if seed.Some? {
        currentCandle := seed.value;
      }
      launched := true;
      listening := true;
    }

    /** `reset`: calls the stored unsubscribe function, which exists only once
        launch has completed. */
    method Reset()
      requires Valid() && launched
      modifies this
      ensures Valid() && !listening && launched
      ensures State() == old(State())
    {
      listening := false;
    }

    /** `resetCurrentCandle`. */
    method ResetCurrentCandle(now: int)
      requires Valid()
      modifies this`currentCandle
      ensures currentCandle == ZeroCandle(symbol, now)
    {
      currentCandle := Candle(symbol, 0, 0, 0, 0, now);
    }

    /** `updateCurrentCandle`: field-by-field update with the trade price. */
    method UpdateCurrentCandle(t: Trade)
      modifies this`currentCandle
      ensures currentCandle == Fold(old(currentCandle), t.price, t.price, t.price, t.timestamp)
    {
      currentCandle := currentCandle.(high := Max(t.price, currentCandle.high));
      currentCandle := currentCandle.(low := if currentCandle.low == 0 then t.price else Min(t.price, currentCandle.low));
      if currentCandle.open == 0 {
        currentCandle := currentCandle.(open := t.price);
      }
      currentCandle := currentCandle.(close := t.price);
      currentCandle := currentCandle.(timestamp := t.timestamp);
    }

    /** `processNextTrades`: one batch from the internal feed, delivered only
        while the emulator listens. */
    method ProcessNextTrades(trades: seq<Trade>, now: int)
      requires Valid() && listening
      modifies this
      ensures Valid() && listening && launched == old(launched)
      ensures State() == ProcessTrades(old(State()), symbol, intervalMs, now, trades)
    {
      var i := 0;
      while i < |trades|
        invariant 0 <= i <= |trades|
        invariant Valid() && listening && launched == old(launched)
        invariant State() == ProcessTrades(old(State()), symbol, intervalMs, now, trades[..i])
      {
        var t := trades[i];
        var previous := timestampDivider;
        timestampDivider := Some(TruncDiv(t.timestamp, intervalMs));
        if timestampDivider != previous {
          emitted := emitted + [currentCandle];
          ResetCurrentCandle(now);
        }
        UpdateCurrentCandle(t);
        assert trades[..i + 1][..i] == trades[..i];
        i := i + 1;
      }
      assert trades[..|trades|] == trades;
    }
  }
}
