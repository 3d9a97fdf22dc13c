/** Request/response correlation: the key an inbound frame is matched under,
    the normalisation of raw tickers, and the one-shot wait table with its
    timeouts. The two event-handler classes are built on these functions. */
module Correlation {
  import opened Models

  /** `maxWaiting`: a wait resolves with false after 1.5 s. */
  const MaxWaitingMs := 1500

  /** `getReceivedEventKey`: `type-channel-market` when channel and market are
      both truthy, else `type` alone. */
  function EventKey(m: MessageData): string
  {
    if Truthy(m.channel) && Truthy(m.market) then m.frameType + "-" + m.channel.value + "-" + m.market.value
    else m.frameType
  }

  /** The key a client waits on after sending `op` on `channel` for `market`
      (`subscribed-ticker-BTC/USD`, `unsubscribed-trades-ETH/USD`, ...). */
  function AckKey(reply: string, channel: string, market: string): string
  {
    reply + "-" + channel + "-" + market
  }

  /** An acknowledgement frame carrying channel and market is matched under
      exactly the key the client waits on; a frame lacking either is matched
      under its type alone (which is how `pong` is correlated). */
  lemma AckFrameMatchesWaitKey(reply: string, channel: string, market: string, msg: string, data: Option<RawTicker>)
    requires channel != "" && market != ""
    ensures EventKey(MessageData(reply, Some(channel), Some(market), msg, data)) == AckKey(reply, channel, market)
    ensures EventKey(MessageData(reply, None, Some(market), msg, data)) == reply
    ensures EventKey(MessageData(reply, Some(channel), None, msg, data)) == reply
    ensures EventKey(MessageData(reply, Some(""), Some(market), msg, data)) == reply
  {
  }

  /** Every key starts with the frame type, so frames of different types whose
      keys agree must have types that are prefixes of each other. */
  lemma EventKeyStartsWithType(m: MessageData)
    ensures |m.frameType| <= |EventKey(m)| && EventKey(m)[..|m.frameType|] == m.frameType
  {
    if Truthy(m.channel) && Truthy(m.market) {
      var k := EventKey(m);
      assert k == m.frameType + ("-" + m.channel.value + "-" + m.market.value);
    }
  }

  /** `processRawTicker`'s normalisation: high is the ask, low the bid, last
      and close the last price, and the timestamp is `time * 1000` truncated. */
  function NormalizeTicker(symbol: string, raw: RawTicker): (t: Ticker)
    ensures t.symbol == symbol && t.high == raw.ask && t.low == raw.bid
    ensures t.ask == raw.ask && t.bid == raw.bid && t.last == raw.last && t.close == raw.last
    ensures raw.time >= 0.0 ==> t.timestamp as real <= raw.time * 1000.0 < t.timestamp as real + 1.0
  {
    Ticker(symbol, TruncReal(raw.time * 1000.0), raw.ask, raw.bid, raw.ask, raw.bid, raw.last, raw.last)
  }

  /** One call to `waitForEvent`: its `cb` closure is identified by `ticket`
      and carries the caller's callback. */
  datatype Registration<C> = Registration(ticket: nat, callback: C)

  /** A callback invocation: which registration fired, and with what result. */
  datatype Firing<C> = Firing(registration: Registration<C>, result: bool)

  /** `mapResolveWaitEvent` (key to the pending resolver) and the counter that
      tells registrations apart. */
  datatype WaitTable<C> = WaitTable(pending: map<string, Registration<C>>, nextTicket: nat)

  /** `waitForEvent(id, callback)`: the new resolver replaces any pending one
      under the same key (its timer is armed by the caller). */
  function Register<C>(w: WaitTable<C>, key: string, callback: C): (r: (WaitTable<C>, Registration<C>))
    ensures r.1.callback == callback && key in r.0.pending && r.0.pending[key] == r.1
    ensures r.0.pending.Keys == w.pending.Keys + {key}
    ensures forall k :: k in w.pending && k != key ==> r.0.pending[k] == w.pending[k]
    ensures w.nextTicket <= r.1.ticket < r.0.nextTicket
  {
    var reg := Registration(w.nextTicket, callback);
    (WaitTable(w.pending[key := reg], w.nextTicket + 1), reg)
  }

  /** A reply frame under `key`: the pending resolver (if any) deletes the key
      and fires its callback with true. */
  function Reply<C>(w: WaitTable<C>, key: string): (WaitTable<C>, Option<Firing<C>>)
  {
    if key in w.pending then (w.(pending := w.pending - {key}), Some(Firing(w.pending[key], true)))
    else (w, None)
  }

  /** The 1.5 s timer armed for registration `reg` on `key`, as written: `cb`
      only checks that SOME resolver is pending under the key, deletes it and
      fires the timer's OWN registration with false. */
  function Expire<C>(w: WaitTable<C>, key: string, reg: Registration<C>): (WaitTable<C>, Option<Firing<C>>)
  {
    if key in w.pending then (w.(pending := w.pending - {key}), Some(Firing(reg, false)))
    else (w, None)
  }

  /** The timer as evidently intended: it fires only when the pending resolver
      under the key is still its own registration. */
  function ExpireOwn<C>(w: WaitTable<C>, key: string, reg: Registration<C>): (WaitTable<C>, Option<Firing<C>>)
  {
    if key in w.pending && w.pending[key].ticket == reg.ticket then
      (w.(pending := w.pending - {key}), Some(Firing(w.pending[key], false)))
    else (w, None)
  }

  /** Once a key has been resolved (by a reply or a timeout), a later reply
      and any later timeout under it do nothing, until someone registers again. */
  lemma ResolutionDeletesKey<C>(w: WaitTable<C>, key: string, reg: Registration<C>)
    ensures Reply(w, key).1.Some? <==> key in w.pending
    ensures Expire(w, key, reg).1.Some? <==> key in w.pending
    ensures var w1 := Reply(w, key).0;
            key !in w1.pending && Reply(w1, key) == (w1, None) && Expire(w1, key, reg) == (w1, None)
    ensures var w2 := Expire(w, key, reg).0;
            key !in w2.pending && Reply(w2, key) == (w2, None) && Expire(w2, key, reg) == (w2, None)
  {
  }

  /** Registering twice under one key: the older registration's timer consumes
      the newer entry, firing the OLDER callback with false; a reply arriving
      afterwards finds nothing, so the newer callback is never fired by it. */
  lemma StaleTimerConsumesNewerWait<C>(w: WaitTable<C>, key: string, first: C, second: C)
    ensures var (w1, r1) := Register(w, key, first);
            var (w2, r2) := Register(w1, key, second);
            var (w3, f) := Expire(w2, key, r1);
            && r1.ticket != r2.ticket
            && f == Some(Firing(r1, false))
            && key !in w3.pending
            && Reply(w3, key).1.None?
  {
  }

  /** The events a wait table sees: a registration (returning a new ticket), a
      reply frame, and the timer of a given registration going off. */
  datatype WaitEvent<C> = RegisterOn(key: string, callback: C) | ReplyOn(key: string)
                        | TimerOf(key: string, registration: Registration<C>)

  /** Runs a trace and records the ticket of every callback that fired, with
      the timer as written (`ownerCheck == false`) or as intended (`true`). */
  function Run<C>(w: WaitTable<C>, trace: seq<WaitEvent<C>>, ownerCheck: bool): (WaitTable<C>, seq<nat>)
    decreases |trace|
  {
    if trace == [] then (w, [])
    else
      var (w1, fired) := Run(w, trace[..|trace| - 1], ownerCheck);
      match trace[|trace| - 1]
      case RegisterOn(key, callback) => (Register(w1, key, callback).0, fired)
      case ReplyOn(key) =>
        var (w2, f) := Reply(w1, key);
        (w2, if f.Some? then fired + [f.value.registration.ticket] else fired)
      case TimerOf(key, reg) =>
        var (w2, f) := if ownerCheck then ExpireOwn(w1, key, reg) else Expire(w1, key, reg);
        (w2, if f.Some? then fired + [f.value.registration.ticket] else fired)
  }

  /** As written, one registration's callback can fire twice: a reply resolves
      registration 0, the key is registered again (ticket 1), and then the
      timer of registration 0 goes off, finds ticket 1 pending, deletes it and
      fires registration 0 a second time (with false). Ticket 1 never fires. */
  lemma DoubleFiringAsWritten(cb: int)
    ensures var trace := [RegisterOn("k", cb), ReplyOn("k"), RegisterOn("k", cb), TimerOf("k", Registration(0, cb))];
            Run(WaitTable(map[], 0), trace, false).1 == [0, 0]
  {
    var trace := [RegisterOn("k", cb), ReplyOn("k"), RegisterOn("k", cb), TimerOf("k", Registration(0, cb))];
    var w0: WaitTable<int> := WaitTable(map[], 0);
    var w1 := WaitTable(map["k" := Registration(0, cb)], 1);
    assert trace[..1][..0] == [];
    assert Run(w0, trace[..1], false) == (w1, []);
    var t2 := trace[..2];
    assert t2[..1] == trace[..1] && t2[|t2| - 1] == ReplyOn("k");
    var r2 := Run(w0, t2, false);
    assert r2.1 == [0] && r2.0.pending == map[] && r2.0.nextTicket == 1;
    var t3 := trace[..3];
    assert t3[..2] == t2 && t3[|t3| - 1] == RegisterOn("k", cb);
    var r3 := Run(w0, t3, false);
    assert r3.1 == [0] && r3.0.pending == map["k" := Registration(1, cb)];
    assert trace[..|trace| - 1] == t3;
  }

  predicate NoDuplicates(s: seq<nat>)
  {
    forall i, j :: 0 <= i < j < |s| ==> s[i] != s[j]
  }

  /** The invariant of the intended wait table: every pending or fired ticket
      was handed out already, distinct keys hold distinct tickets, no pending
      ticket has fired, and no ticket fired twice. */
  ghost predicate Consistent<C>(w: WaitTable<C>, fired: seq<nat>)
  {
    && (forall k :: k in w.pending ==> w.pending[k].ticket < w.nextTicket && w.pending[k].ticket !in fired)
    && (forall k1, k2 :: k1 in w.pending && k2 in w.pending && k1 != k2 ==> w.pending[k1].ticket != w.pending[k2].ticket)
    && (forall i :: 0 <= i < |fired| ==> fired[i] < w.nextTicket)
    && NoDuplicates(fired)
  }

  /** With the owner check, every registration's callback fires at most once,
      on ANY trace of registrations, replies and timers. */
  lemma {:induction false} FiresAtMostOnce<C>(w: WaitTable<C>, trace: seq<WaitEvent<C>>)
    requires Consistent(w, [])
    ensures var (w', fired) := Run(w, trace, true); Consistent(w', fired) && NoDuplicates(fired)
    decreases |trace|
  {
    if trace != [] {
      FiresAtMostOnce(w, trace[..|trace| - 1]);
      var (w1, fired) := Run(w, trace[..|trace| - 1], true);
      match trace[|trace| - 1]
      case RegisterOn(key, callback) =>
        var w2 := Register(w1, key, callback).0;
        assert Consistent(w2, fired);
      case ReplyOn(key) =>
        var (w2, f) := Reply(w1, key);
        if f.Some? {
          var t := w1.pending[key].ticket;
          var fired' := fired + [t];
          assert forall i :: 0 <= i < |fired| ==> fired'[i] == fired[i];
          assert Consistent(w2, fired');
        }
      case TimerOf(key, reg) =>
        var (w2, f) := ExpireOwn(w1, key, reg);
        if f.Some? {
          var t := w1.pending[key].ticket;
          var fired' := fired + [t];
          assert forall i :: 0 <= i < |fired| ==> fired'[i] == fired[i];
          assert Consistent(w2, fired');
        }
    }
  }
}
