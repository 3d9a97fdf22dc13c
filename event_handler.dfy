/** The event correlator of `event-handler.ts`: the pending-wait table, the
    dispatch of inbound frames, and the per-symbol last-ticker cache. The
    callback type `C` is what the owning client wants run on resolution. */
module EventHandler {
  import opened Models
  import opened Correlation

  /** What is published on the (single, global) emitter. */
  datatype Emission = ErrorEvent(message: string) | TickerEvent(symbol: string, ticker: Ticker)

  /** How `processMessage` disposed of a frame. `Crashed` is a ticker update
      without `data`, on which `processRawTicker` throws. */
  datatype Outcome<C> = Resolved(firing: Firing<C>) | RaisedError(message: string)
                      | CachedTicker(ticker: Ticker) | Ignored | Crashed

  class Handler<C> {
    var waits: WaitTable<C>
    var lastTickers: map<string, Ticker>
    var emitted: seq<Emission>

    constructor ()
      ensures waits == WaitTable(map[], 0) && lastTickers == map[] && emitted == []
    {
      waits := WaitTable(map[], 0);
      lastTickers := map[];
      emitted := [];
    }

    /** `waitForEvent(id, callback)`: registers a resolver under `id` and
        returns the registration whose 1.5 s timer the environment will fire
        through `Timeout`. */
    method WaitForEvent(id: string, callback: C) returns (reg: Registration<C>)
      modifies this`waits
      ensures (waits, reg) == Register(old(waits), id, callback)
      ensures id in waits.pending && waits.pending[id] == reg
      ensures lastTickers == old(lastTickers) && emitted == old(emitted)
    {
      reg := Registration(waits.nextTicket, callback);
      waits := WaitTable(waits.pending[id := reg], waits.nextTicket + 1);
    }

    /** The 1.5 s timer of registration `reg` on `id` goes off. As written,
        `cb` only checks that SOME wait is pending under `id`: it deletes that
        wait, whichever registration it is, and fires the timer's own callback
        with false (`Correlation.Expire`). A timer whose wait was already
        resolved therefore consumes a newer wait under the same key. */
    method Timeout(id: string, reg: Registration<C>) returns (fired: Option<Firing<C>>)
      modifies this`waits
      ensures (waits, fired) == Expire(old(waits), id, reg)
      ensures fired.Some? <==> id in old(waits.pending)
      ensures fired.Some? ==> fired.value == Firing(reg, false) && waits.pending == old(waits.pending) - {id}
      ensures lastTickers == old(lastTickers) && emitted == old(emitted)
    {
      if id in waits.pending {
        waits := waits.(pending := waits.pending - {id});
        fired := Some(Firing(reg, false));
      } else {
        fired := None;
      }
    }

    /** `processMessage`: a frame whose key has a pending wait resolves it and
        goes no further; otherwise an `error` frame raises an error carrying
        `msg`, and a ticker update is normalised, cached under its market and
        published. Every other frame is ignored. */
    method ProcessMessage(m: MessageData) returns (out: Outcome<C>)
      modifies this
      ensures var key := EventKey(m);
              key in old(waits.pending) ==>
                && out == Resolved(Firing(old(waits.pending)[key], true))
                && (waits, Some(out.firing)) == Reply(old(waits), key)
                && lastTickers == old(lastTickers) && emitted == old(emitted)
      ensures var key := EventKey(m);
              key !in old(waits.pending) ==>
                && waits == old(waits)
                && (m.frameType == "error" ==>
                      out == RaisedError(m.msg) && emitted == old(emitted) + [ErrorEvent(m.msg)]
                      && lastTickers == old(lastTickers))
                && (m.frameType == "update" && m.channel == Some("ticker") && m.data.Some? ==>
                      var symbol := PropertyName(m.market);
                      var t := NormalizeTicker(symbol, m.data.value);
                      && out == CachedTicker(t)
                      && lastTickers == old(lastTickers)[symbol := t]
                      && emitted == old(emitted) + [TickerEvent(symbol, t)])
                && (m.frameType == "update" && m.channel == Some("ticker") && m.data.None? ==>
                      out == Crashed && lastTickers == old(lastTickers) && emitted == old(emitted))
                && (m.frameType != "error" && !(m.frameType == "update" && m.channel == Some("ticker")) ==>
                      out == Ignored && lastTickers == old(lastTickers) && emitted == old(emitted))
    {
      var key := EventKey(m);
      if key in waits.pending {
        var reg := waits.pending[key];
        waits := waits.(pending := waits.pending - {key});
        out := Resolved(Firing(reg, true));
        return;
      }
      out := Ignored;
      if m.frameType == "error" {
        emitted := emitted + [ErrorEvent(m.msg)];
        out := RaisedError(m.msg);
      }
      if m.frameType == "update" && m.channel == Some("ticker") {
        if m.data.None? {
          out := Crashed;
          return;
        }
        var t := ProcessRawTicker(PropertyName(m.market), m.data.value);
        out := CachedTicker(t);
      }
    }

    /** `processRawTicker`: caches the normalised ticker and publishes it. */
    method ProcessRawTicker(symbol: string, raw: RawTicker) returns (t: Ticker)
      modifies this`lastTickers, this`emitted
      ensures t == NormalizeTicker(symbol, raw)
      ensures lastTickers == old(lastTickers)[symbol := t]
      ensures emitted == old(emitted) + [TickerEvent(symbol, t)]
    {
      t := NormalizeTicker(symbol, raw);
      lastTickers := lastTickers[symbol := t];
      emitted := emitted + [TickerEvent(symbol, t)];
    }

    /** `deleteTickerCache`: drops one symbol and keeps every other entry. */
    method DeleteTickerCache(id: string)
      modifies this`lastTickers
      ensures lastTickers == old(lastTickers) - {id}
      ensures id !in lastTickers
      ensures forall k :: k != id ==> (k in lastTickers <==> k in old(lastTickers))
      ensures forall k :: k in lastTickers ==> lastTickers[k] == old(lastTickers)[k]
    {
      lastTickers := lastTickers - {id};
    }

    /** `clearCache`: empties the whole cache. */
    method ClearCache()
      modifies this`lastTickers
      ensures lastTickers == map[]
    {
      lastTickers := map[];
    }

    function GetLastTickers(): map<string, Ticker>
      reads this
    {
      lastTickers
    }
  }
}
