/** The subscription list a client keeps, and every change the client makes to
    it, as functions of a `Ledger`: the list itself, the send queue, the armed
    timers and the log of outward effects (emits, frames sent, emulator
    launches). The two client classes are specified by these functions; the
    properties of subscribe, unsubscribe, rollback and replay are proved here. */
module Subscriptions {
  import opened Models
  import opened Correlation

  /** `retrySubscription`: delay before a failed subscription is retried. */
  const RetrySubscriptionMs := 2000
  /** `retryTimeoutMs`: delay of the not-ready retry and of a reconnect. */
  const RetryTimeoutMs := 5000
  /** `triggerTickerDisconnected`: a feed silent this long is re-subscribed. */
  const StaleAfterMs := 360000
  /** `pingIntervalMs`. */
  const PingIntervalMs := 15000
  /** `disconnectedTrigger`: two ping intervals without a pong. */
  const DisconnectedTriggerMs := 2 * PingIntervalMs

  /** `receivedPongRecently` on the recorded pong time (`None` before any is
      recorded): a missing or zero time is falsy and gives false; while the
      socket is connecting the answer is true; otherwise the last pong must be
      less than two ping intervals old. */
  function PongRecent(lastPong: Option<int>, connecting: bool, now: int): (r: bool)
    ensures r ==> lastPong.Some? && lastPong.value != 0
    ensures lastPong.Some? && lastPong.value != 0 ==>
              (r <==> connecting || now - lastPong.value < DisconnectedTriggerMs)
  {
    match lastPong
    case None => false
    case Some(t) => if t == 0 then false else if connecting then true else now - t < DisconnectedTriggerMs
  }

  /** One entry of `subscriptions`. Ticker and trades entries hold the symbol
      as the caller gave it; a candle entry holds the formatted symbol and the
      handle of its candle emulator. */
  datatype Subscription =
    | TickerSub(symbol: string)
    | TradesSub(symbol: string, forCandle: bool)
    | CandleSub(symbol: string, interval: string, emulator: nat)

  /** What the `has*` queries and the `find`/`findIndex` calls look for. */
  datatype Key = TickerKey(symbol: string) | TradesKey(symbol: string) | CandleKey(symbol: string, interval: string)

  predicate Matches(s: Subscription, k: Key)
  {
    match k
    case TickerKey(sym) => s.TickerSub? && s.symbol == sym
    case TradesKey(sym) => s.TradesSub? && s.symbol == sym
    case CandleKey(sym, iv) => s.CandleSub? && s.symbol == sym && s.interval == iv
  }

  /** `hasTickerSubscription`, `hasTradesSubscription`, `hasCandleSubscription`. */
  predicate Has(subs: seq<Subscription>, k: Key)
  {
    exists i :: 0 <= i < |subs| && Matches(subs[i], k)
  }

  /** `findIndex`: the position of the first matching entry, `|subs|` for none. */
  function Find(subs: seq<Subscription>, k: Key): (i: nat)
    ensures i <= |subs|
    ensures i < |subs| ==> Matches(subs[i], k)
    ensures forall j :: 0 <= j < i ==> !Matches(subs[j], k)
    ensures i == |subs| <==> !Has(subs, k)
  {
    if subs == [] then 0
    else if Matches(subs[0], k) then 0
    else 1 + Find(subs[1..], k)
  }

  /** `splice(findIndex(...), 1)` guarded by the `has*` check: the first
      matching entry goes, the rest keep their order. */
  function RemoveFirst(subs: seq<Subscription>, k: Key): (r: seq<Subscription>)
    ensures !Has(subs, k) ==> r == subs
    ensures Has(subs, k) ==> |r| == |subs| - 1 && multiset(r) + multiset{subs[Find(subs, k)]} == multiset(subs)
  {
    var i := Find(subs, k);
    if i == |subs| then subs
    else
      assert subs == subs[..i] + [subs[i]] + subs[i + 1..];
      subs[..i] + subs[i + 1..]
  }

  /** Removing by key takes out exactly the first matching entry: everything
      before it stays in place and everything after it moves up by one. This
      is the removal `removeCandleSubscription` is meant to perform. */
  lemma RemoveFirstExact(subs: seq<Subscription>, k: Key)
    requires Has(subs, k)
    ensures Find(subs, k) < |subs| && Matches(subs[Find(subs, k)], k)
    ensures forall j :: 0 <= j < Find(subs, k) ==> RemoveFirst(subs, k)[j] == subs[j] && !Matches(subs[j], k)
    ensures forall j :: Find(subs, k) <= j < |RemoveFirst(subs, k)| ==> RemoveFirst(subs, k)[j] == subs[j + 1]
  {
    var i := Find(subs, k);
    assert RemoveFirst(subs, k) == subs[..i] + subs[i + 1..];
    Splice(subs, i);
  }

  /** Splicing out position `i` keeps the front and shifts the back. */
  lemma Splice(s: seq<Subscription>, i: nat)
    requires i < |s|
    ensures var r := s[..i] + s[i + 1..];
            && |r| == |s| - 1
            && (forall j :: 0 <= j < i ==> r[j] == s[j])
            && (forall j :: i <= j < |r| ==> r[j] == s[j + 1])
  {
  }

  /** Every entry left after a removal was there before. */
  lemma RemoveFirstSubset(subs: seq<Subscription>, k: Key, x: Subscription)
    requires x in RemoveFirst(subs, k)
    ensures x in subs
  {
    if Has(subs, k) {
      assert x in multiset(RemoveFirst(subs, k));
    }
  }

  /** The candle entries only, in order: `filter(type === 'candle')`. */
  function CandlesOnly(subs: seq<Subscription>): (r: seq<Subscription>)
    ensures |r| <= |subs|
    ensures forall i :: 0 <= i < |r| ==> r[i].CandleSub? && r[i] in subs
    ensures forall x :: x in subs && x.CandleSub? ==> x in r
    decreases |subs|
  {
    if subs == [] then []
    else (if subs[0].CandleSub? then [subs[0]] else []) + CandlesOnly(subs[1..])
  }

  /** A candle is in the candle-only list exactly when it is in the list. */
  lemma CandlesOnlyHas(subs: seq<Subscription>, k: Key)
    requires k.CandleKey?
    ensures Has(CandlesOnly(subs), k) <==> Has(subs, k)
  {
    var c := CandlesOnly(subs);
    if Has(subs, k) {
      var j :| 0 <= j < |subs| && Matches(subs[j], k);
      assert subs[j] in c;
      var m :| 0 <= m < |c| && c[m] == subs[j];
      assert Matches(c[m], k);
    }
    if Has(c, k) {
      var m :| 0 <= m < |c| && Matches(c[m], k);
      assert c[m] in subs;
      var j :| 0 <= j < |subs| && subs[j] == c[m];
      assert Matches(subs[j], k);
    }
  }

  /** `removeCandleSubscription` as written: the index is computed in the
      candle-only list but spliced out of the full list. One entry goes, the
      one at the candle's position among the candles, whatever it is. */
  function RemoveCandleAsWritten(subs: seq<Subscription>, symbol: string, interval: string): (r: seq<Subscription>)
    ensures !Has(subs, CandleKey(symbol, interval)) ==> r == subs
    ensures Has(subs, CandleKey(symbol, interval)) ==>
              var i := Find(CandlesOnly(subs), CandleKey(symbol, interval));
              && i < |CandlesOnly(subs)| <= |subs|
              && r == subs[..i] + subs[i + 1..]
  {
    var k := CandleKey(symbol, interval);
    if !Has(subs, k) then subs
    else
      CandlesOnlyHas(subs, k);
      var i := Find(CandlesOnly(subs), k);
      subs[..i] + subs[i + 1..]
  }

  /** On a list of candles only, the two indices agree and the as-written
      removal is the removal by key. */
  lemma {:induction false} RemoveCandleAsWrittenOnCandles(subs: seq<Subscription>, symbol: string, interval: string)
    requires forall i :: 0 <= i < |subs| ==> subs[i].CandleSub?
    ensures RemoveCandleAsWritten(subs, symbol, interval) == RemoveFirst(subs, CandleKey(symbol, interval))
  {
    CandlesOnlyOfCandles(subs);
  }

  lemma {:induction false} CandlesOnlyOfCandles(subs: seq<Subscription>)
    requires forall i :: 0 <= i < |subs| ==> subs[i].CandleSub?
    ensures CandlesOnly(subs) == subs
    decreases |subs|
  {
    if subs != [] {
      CandlesOnlyOfCandles(subs[1..]);
    }
  }

  /** With a ticker entry ahead of the candle, the as-written removal deletes
      the ticker entry and leaves the candle entry in the list. */
  lemma RemoveCandleAsWrittenDropsTicker()
    ensures var subs := [TickerSub("BTC/USD"), CandleSub("BTC/USD", "1m", 0)];
            && RemoveCandleAsWritten(subs, "BTC/USD", "1m") == [CandleSub("BTC/USD", "1m", 0)]
            && RemoveFirst(subs, CandleKey("BTC/USD", "1m")) == [TickerSub("BTC/USD")]
  {
    var subs := [TickerSub("BTC/USD"), CandleSub("BTC/USD", "1m", 0)];
    assert Matches(subs[1], CandleKey("BTC/USD", "1m"));
    assert CandlesOnly(subs[1..]) == [subs[1]] by {
      assert subs[1..][1..] == [];
    }
    assert CandlesOnly(subs) == [subs[1]];
  }

  /** How many candle entries are on `symbol` (any interval). */
  function CandleCount(subs: seq<Subscription>, symbol: string): nat
    decreases |subs|
  {
    if subs == [] then 0
    else (if subs[0].CandleSub? && subs[0].symbol == symbol then 1 else 0) + CandleCount(subs[1..], symbol)
  }

  /** What a `sub()` closure or a queued job is about: the channel, the symbol
      as the caller gave it, and (for trades) the `forCandle` flag. */
  datatype Request = TickerReq(symbol: string) | TradesReq(symbol: string, forCandle: bool)

  function Channel(req: Request): string
  {
    if req.TickerReq? then "ticker" else "trades"
  }

  function KeyOf(req: Request): Key
  {
    if req.TickerReq? then TickerKey(req.symbol) else TradesKey(req.symbol)
  }

  function EntryOf(req: Request): Subscription
  {
    if req.TickerReq? then TickerSub(req.symbol) else TradesSub(req.symbol, req.forCandle)
  }

  /** The request a ticker or trades entry is unsubscribed with (the entry is
      captured, with its flag, before it is removed). */
  function RequestOf(s: Subscription): Request
    requires !s.CandleSub?
  {
    if s.TickerSub? then TickerReq(s.symbol) else TradesReq(s.symbol, s.forCandle)
  }

  /** The retry scheduled after a failed subscription calls `subscribeTicker`
      or `subscribeTrades(symbol)`: a trades retry drops `forCandle`. */
  function RetryRequest(req: Request): Request
  {
    if req.TickerReq? then req else TradesReq(req.symbol, false)
  }

  /** What the callback of a pending wait does once it fires. */
  datatype Continuation = SubscribeAck(req: Request) | UnsubscribeAck(req: Request) | PongAck

  /** A closure on the concurrency-1 send queue. */
  datatype Job = SubscribeJob(req: Request) | UnsubscribeJob(req: Request)

  /** The one-shot timers a client arms: the `sub()` retry, the re-subscription
      after a failure, the deferred replay, the reconnect delay, and the 1.5 s
      timeout of a pending wait. */
  datatype Timer =
    | RetryTimer(req: Request, delayMs: nat)
    | ResubscribeTimer(req: Request)
    | RestartTimer
    | ReconnectTimer
    | WaitTimer(key: string, registration: Registration<Continuation>)

  /** Topics of the global emitter a client publishes on. */
  datatype Topic = ErrorTopic | ReconnectTopic | SocketNotReadyTopic | RetrySubscriptionTopic
                 | ReconnectCandleTopic(candle: Subscription)

  /** Outward effects, in order: emits, `globalEmitSubscription()` calls,
      frames sent, candle-emulator launches and resets, `ws.close()` calls. */
  datatype Effect =
    | Published(topic: Topic)
    | SubscriptionsChanged
    | Sent(op: string, channel: string, market: string)
    | SentPing
    | EmulatorLaunched(id: nat, symbol: string, interval: string)
    | EmulatorReset(id: nat)
    | CloseRequested

  /** `launched` holds the handles of the emulators whose `launch()` has
      finished (its awaited candle fetch returned and `unSubFn` is set); a
      launch is started by `subscribeCandle` and finishes later, as an event of
      the environment. */
  datatype Ledger = Ledger(subs: seq<Subscription>, jobs: seq<Job>, timers: seq<Timer>,
                           effects: seq<Effect>, nextEmulator: nat, launched: set<nat>)

  /** Only emulators already handed out can have finished launching. */
  ghost predicate LaunchesKnown(l: Ledger)
  {
    forall id :: id in l.launched ==> id < l.nextEmulator
  }

  /** `add*Subscription`: push, then notify. */
  function Add(l: Ledger, s: Subscription): Ledger
  {
    l.(subs := l.subs + [s], effects := l.effects + [SubscriptionsChanged])
  }

  /** `remove*Subscription`: nothing when no entry matches; otherwise the first
      match is spliced out and the change is notified. */
  function Remove(l: Ledger, k: Key): Ledger
  {
    if Has(l.subs, k) then l.(subs := RemoveFirst(l.subs, k), effects := l.effects + [SubscriptionsChanged])
    else l
  }

  /** The `sub()` closure: not open, retry in 2 s; open but not ready, publish
      `socket-not-ready` and retry in 5 s; otherwise queue the subscribe job. */
  function Attempt(l: Ledger, isOpen: bool, readyState: nat, req: Request): Ledger
  {
    if !isOpen then l.(timers := l.timers + [RetryTimer(req, RetrySubscriptionMs)])
    else if readyState == 0 then
      l.(effects := l.effects + [Published(SocketNotReadyTopic)],
         timers := l.timers + [RetryTimer(req, RetryTimeoutMs)])
    else l.(jobs := l.jobs + [SubscribeJob(req)])
  }

  /** The key a subscription's retry timer is filed under in
      `mapRetrySubscription` (the key its acknowledgement is awaited under). */
  function RetryKey(req: Request): string
  {
    AckKey("subscribed", Channel(req), FormatSymbol(req.symbol))
  }

  /** `clearInterval(mapRetrySubscription[keySub])`: the pending `sub()` retry
      filed under `key` is cancelled. */
  function CancelRetry(timers: seq<Timer>, key: string): (r: seq<Timer>)
    ensures forall t :: t in r <==> t in timers && !(t.RetryTimer? && RetryKey(t.req) == key)
    decreases |timers|
  {
    if timers == [] then []
    else
      var t := timers[|timers| - 1];
      assert timers == timers[..|timers| - 1] + [t];
      CancelRetry(timers[..|timers| - 1], key) + (if t.RetryTimer? && RetryKey(t.req) == key then [] else [t])
  }

  /** How many `sub()` retries are pending under `key`. */
  function RetryCount(timers: seq<Timer>, key: string): nat
    decreases |timers|
  {
    if timers == [] then 0
    else RetryCount(timers[..|timers| - 1], key)
         + (if timers[|timers| - 1].RetryTimer? && RetryKey(timers[|timers| - 1].req) == key then 1 else 0)
  }

  lemma {:induction false} RetryCountNone(timers: seq<Timer>, key: string)
    requires forall t :: t in timers ==> !(t.RetryTimer? && RetryKey(t.req) == key)
    ensures RetryCount(timers, key) == 0
    decreases |timers|
  {
    if timers != [] {
      assert forall t :: t in timers[..|timers| - 1] ==> t in timers;
      RetryCountNone(timers[..|timers| - 1], key);
    }
  }

  /** `subscribeTicker(symbol)` / `subscribeTrades(symbol, forCandle)`: nothing
      when the feed is subscribed; otherwise cancel the pending retry of the
      same key, add the entry, and run `sub()`. */
  function Subscribe(l: Ledger, isOpen: bool, readyState: nat, req: Request): (r: Ledger)
    ensures Has(r.subs, KeyOf(req)) && l.subs <= r.subs && |r.subs| <= |l.subs| + 1
  {
    assert Matches((l.subs + [EntryOf(req)])[|l.subs|], KeyOf(req));
    if Has(l.subs, KeyOf(req)) then l
    else Attempt(Add(l.(timers := CancelRetry(l.timers, RetryKey(req))), EntryOf(req)), isOpen, readyState, req)
  }

  /** `unsubscribeTicker` / `unsubscribeTrades` once the open-socket check has
      passed: capture the first entry, remove it, queue the unsubscribe job. */
  function Unsubscribe(l: Ledger, k: Key): (r: Ledger)
    requires !k.CandleKey?
    ensures !Has(l.subs, k) ==> r == l
    ensures Has(l.subs, k) ==>
              && |r.subs| == |l.subs| - 1 && |r.jobs| == |l.jobs| + 1 && l.jobs <= r.jobs
              && r.jobs[|l.jobs|] == UnsubscribeJob(RequestOf(l.subs[Find(l.subs, k)]))
              && KeyOf(r.jobs[|l.jobs|].req) == k
  {
    if !Has(l.subs, k) then l
    else
      var req := RequestOf(l.subs[Find(l.subs, k)]);
      Remove(l, k).(jobs := l.jobs + [UnsubscribeJob(req)])
  }

  /** `subscribeCandle` once the interval check has passed: nothing if the
      candle is there (looked up with the symbol as given); else a new
      launched emulator, the feed subscription (`feed`: the ticker in one
      build, trades with `forCandle` in the other), and the candle entry under
      the formatted symbol. */
  function SubscribeCandle(l: Ledger, isOpen: bool, readyState: nat, symbol: string, interval: string,
                           feed: Request): Ledger
  {
    if Has(l.subs, CandleKey(symbol, interval)) then l
    else
      var id := l.nextEmulator;
      var launched := l.(effects := l.effects + [EmulatorLaunched(id, FormatSymbol(symbol), interval)],
                         nextEmulator := id + 1);
      Add(Subscribe(launched, isOpen, readyState, feed), CandleSub(FormatSymbol(symbol), interval, id))
  }

  /** How a public call of a client ends: normally, or with what it throws. */
  datatype Exit = Returned | NotConnectedError | ActiveSubscriptionsError(count: nat)
                | WrongIntervalError | TypeErrorThrown

  /** `removeCandleSubscription`: nothing when the candle is absent;
      otherwise the as-written splice, then the change is notified. */
  function RemoveCandle(l: Ledger, symbol: string, interval: string): (r: Ledger)
    ensures !Has(l.subs, CandleKey(symbol, interval)) ==> r == l
    ensures Has(l.subs, CandleKey(symbol, interval)) ==>
              r == l.(subs := RemoveCandleAsWritten(l.subs, symbol, interval), effects := l.effects + [SubscriptionsChanged])
  {
    if Has(l.subs, CandleKey(symbol, interval))
    then l.(subs := RemoveCandleAsWritten(l.subs, symbol, interval), effects := l.effects + [SubscriptionsChanged])
    else l
  }

  /** `unsubscribeCandle`. The presence check uses the formatted symbol, the
      `find` the symbol as given, so a symbol containing '-' throws before
      anything changes. So does `emulator.reset()` while the emulator's launch
      is pending, `unSubFn` being unset. The candle is removed by
      `removeCandleSubscription` as written. The ticker feed is unsubscribed
      only when exactly one candle on the symbol is left, and that step throws
      when the socket is not open, after the removal. */
  function UnsubscribeCandle(l: Ledger, isOpen: bool, symbol: string, interval: string): (Ledger, Exit)
  {
    var fs := FormatSymbol(symbol);
    if !Has(l.subs, CandleKey(fs, interval)) then (l, Returned)
    else if !Has(l.subs, CandleKey(symbol, interval)) then (l, TypeErrorThrown)
    else
      var emulator := l.subs[Find(l.subs, CandleKey(symbol, interval))].emulator;
      if emulator !in l.launched then (l, TypeErrorThrown)
      else
        var removed := RemoveCandle(l.(effects := l.effects + [EmulatorReset(emulator)]), fs, interval);
        if CandleCount(removed.subs, fs) != 1 then (removed, Returned)
        else if !isOpen then (removed, NotConnectedError)
        else (Unsubscribe(removed, TickerKey(fs)), Returned)
  }

  function Op(job: Job): string
  {
    if job.SubscribeJob? then "subscribe" else "unsubscribe"
  }

  /** The key the job's wait is registered under. */
  function JobKey(job: Job): string
  {
    AckKey(if job.SubscribeJob? then "subscribed" else "unsubscribed", Channel(job.req), FormatSymbol(job.req.symbol))
  }

  function JobContinuation(job: Job): Continuation
  {
    if job.SubscribeJob? then SubscribeAck(job.req) else UnsubscribeAck(job.req)
  }

  /** The send of a job (after its wait is registered): nothing without a
      socket; otherwise the frame goes out, and a send error publishes the
      error and rolls back as the send callback does. */
  function Send(l: Ledger, wsPresent: bool, sendFails: bool, job: Job): (r: Ledger)
    ensures r.jobs == l.jobs
    ensures !(wsPresent && sendFails) ==> r.subs == l.subs && r.timers == l.timers
    ensures !wsPresent ==> r == l
    ensures wsPresent ==>
              var sent := l.effects + [Sent(Op(job), Channel(job.req), FormatSymbol(job.req.symbol))];
              if sendFails then sent + [Published(ErrorTopic)] <= r.effects else r.effects == sent
  {
    if !wsPresent then l
    else
      var sent := l.(effects := l.effects + [Sent(Op(job), Channel(job.req), FormatSymbol(job.req.symbol))]);
      if !sendFails then sent
      else
        var failed := sent.(effects := sent.effects + [Published(ErrorTopic)]);
        match job
        case SubscribeJob(req) => Remove(failed.(timers := failed.timers + [ResubscribeTimer(req)]), KeyOf(req))
        case UnsubscribeJob(req) => Add(failed, EntryOf(req))
  }

  /** The list part of a fired wait callback: a refused or timed-out
      subscription is removed and retried in 2 s; a refused or timed-out
      unsubscription puts the captured entry back. */
  function Acknowledge(l: Ledger, c: Continuation, result: bool): (r: Ledger)
    ensures result || c.PongAck? ==> r == l
    ensures r.jobs == l.jobs
    ensures !result && c.SubscribeAck? ==> r.timers == l.timers + [ResubscribeTimer(c.req)]
    ensures !result && c.UnsubscribeAck? ==> r.subs == l.subs + [EntryOf(c.req)]
  {
    if result then l
    else
      match c
      case SubscribeAck(req) => Remove(l, KeyOf(req)).(timers := Remove(l, KeyOf(req)).timers + [ResubscribeTimer(req)])
      case UnsubscribeAck(req) => Add(l, EntryOf(req))
      case PongAck => l
  }

  /** The re-subscription timer going off. */
  function Resubscribe(l: Ledger, isOpen: bool, readyState: nat, req: Request): (r: Ledger)
    ensures Has(r.subs, KeyOf(RetryRequest(req))) && l.subs <= r.subs
    ensures Published(RetrySubscriptionTopic) in r.effects
  {
    Subscribe(l.(effects := l.effects + [Published(RetrySubscriptionTopic)]), isOpen, readyState, RetryRequest(req))
  }

  // ---------------------------------------------------------------------
  // Subscribe and unsubscribe

  /** Subscribing is idempotent; a new subscription appends exactly its own
      entry, and at most one job (never an unsubscribe) is queued. */
  lemma SubscribeAppendsOnce(l: Ledger, isOpen: bool, readyState: nat, req: Request)
    ensures var r := Subscribe(l, isOpen, readyState, req);
            && Subscribe(r, isOpen, readyState, req) == r
            && (Has(l.subs, KeyOf(req)) ==> r == l)
            && (!Has(l.subs, KeyOf(req)) ==>
                  && r.subs == l.subs + [EntryOf(req)]
                  && (r.jobs == l.jobs || r.jobs == l.jobs + [SubscribeJob(req)])
                  && (r.jobs == l.jobs + [SubscribeJob(req)] <==> isOpen && readyState != 0))
  {
    var r := Subscribe(l, isOpen, readyState, req);
    if !Has(l.subs, KeyOf(req)) {
      assert Matches(r.subs[|l.subs|], KeyOf(req));
    }
  }

  /** A new subscription leaves at most one `sub()` retry pending under its
      key: the one it may have just armed. */
  lemma SubscribeLeavesOneRetry(l: Ledger, isOpen: bool, readyState: nat, req: Request)
    requires !Has(l.subs, KeyOf(req))
    ensures RetryCount(Subscribe(l, isOpen, readyState, req).timers, RetryKey(req)) <= 1
  {
    var cancelled := CancelRetry(l.timers, RetryKey(req));
    RetryCountNone(cancelled, RetryKey(req));
    var r := Subscribe(l, isOpen, readyState, req);
    if r.timers != cancelled {
      assert r.timers[..|r.timers| - 1] == cancelled;
    }
  }

  /** A refused (or timed-out) subscription, and a failed send of it, put the
      list back as it was before the subscribe call and arm one retry. */
  lemma SubscribeRollbackRestores(l: Ledger, isOpen: bool, readyState: nat, req: Request)
    requires !Has(l.subs, KeyOf(req))
    ensures var r := Subscribe(l, isOpen, readyState, req);
            && Acknowledge(r, SubscribeAck(req), false).subs == l.subs
            && Acknowledge(r, SubscribeAck(req), false).timers == r.timers + [ResubscribeTimer(req)]
            && Send(r, true, true, SubscribeJob(req)).subs == l.subs
  {
    var r := Subscribe(l, isOpen, readyState, req);
    var k := KeyOf(req);
    assert r.subs == l.subs + [EntryOf(req)];
    assert Matches(r.subs[|l.subs|], k);
    assert forall j :: 0 <= j < |l.subs| ==> r.subs[j] == l.subs[j];
    assert Find(r.subs, k) == |l.subs|;
    assert r.subs[..|l.subs|] == l.subs;
  }

  /** A refused (or timed-out) unsubscription, and a failed send of it, put
      the same entry back (with its `forCandle` flag): the list holds the same
      entries as before the unsubscribe call, the entry now last. */
  lemma UnsubscribeRollbackRestores(l: Ledger, k: Key)
    requires !k.CandleKey? && Has(l.subs, k)
    ensures var r := Unsubscribe(l, k);
            var req := RequestOf(l.subs[Find(l.subs, k)]);
            && r.jobs == l.jobs + [UnsubscribeJob(req)]
            && EntryOf(req) == l.subs[Find(l.subs, k)]
            && multiset(Acknowledge(r, UnsubscribeAck(req), false).subs) == multiset(l.subs)
            && multiset(Send(r, true, true, UnsubscribeJob(req)).subs) == multiset(l.subs)
  {
  }

  /** A trades subscription whose subscribe fails comes back, after the
      retry delay, WITHOUT its `forCandle` flag. */
  lemma TradesRetryDropsForCandle(l: Ledger, isOpen: bool, readyState: nat, symbol: string)
    requires !Has(l.subs, TradesKey(symbol))
    ensures var req := TradesReq(symbol, true);
            var failed := Acknowledge(Subscribe(l, isOpen, readyState, req), SubscribeAck(req), false);
            Resubscribe(failed, isOpen, readyState, req).subs == l.subs + [TradesSub(symbol, false)]
  {
    var req := TradesReq(symbol, true);
    SubscribeRollbackRestores(l, isOpen, readyState, req);
  }

  /** `subscribeCandle` looks the candle up under the symbol as given but
      stores it formatted: for a symbol without '-' a second call changes
      nothing, while for a symbol with '-' every call adds another candle
      entry and launches another emulator. */
  lemma CandleLookupUsesRawSymbol(l: Ledger, isOpen: bool, readyState: nat, symbol: string, interval: string, feed: Request)
    ensures var r := SubscribeCandle(l, isOpen, readyState, symbol, interval, feed);
            && ('-' !in symbol ==> SubscribeCandle(r, isOpen, readyState, symbol, interval, feed) == r)
            && ('-' in symbol && !Has(r.subs, CandleKey(symbol, interval)) ==>
                  SubscribeCandle(r, isOpen, readyState, symbol, interval, feed).subs
                  == Subscribe(r.(nextEmulator := r.nextEmulator + 1, effects := r.effects + [EmulatorLaunched(r.nextEmulator, FormatSymbol(symbol), interval)]),
                               isOpen, readyState, feed).subs + [CandleSub(FormatSymbol(symbol), interval, r.nextEmulator)])
  {
    var r := SubscribeCandle(l, isOpen, readyState, symbol, interval, feed);
    if '-' !in symbol && !Has(l.subs, CandleKey(symbol, interval)) {
      assert Matches(r.subs[|r.subs| - 1], CandleKey(symbol, interval));
    }
  }

  /** The ticker and trades entries only, in order. */
  function NonCandles(subs: seq<Subscription>): seq<Subscription>
    decreases |subs|
  {
    if subs == [] then []
    else (if subs[0].CandleSub? then [] else [subs[0]]) + NonCandles(subs[1..])
  }

  lemma {:induction false} NonCandlesAppend(a: seq<Subscription>, b: seq<Subscription>)
    ensures NonCandles(a + b) == NonCandles(a) + NonCandles(b)
    decreases |a|
  {
    if a == [] {
      assert a + b == b;
    } else {
      var head := if a[0].CandleSub? then [] else [a[0]];
      NonCandlesAppend(a[1..], b);
      assert (a + b)[0] == a[0] && (a + b)[1..] == a[1..] + b;
      assert NonCandles(a + b) == head + NonCandles(a[1..] + b);
      assert NonCandles(a) == head + NonCandles(a[1..]);
      assert head + (NonCandles(a[1..]) + NonCandles(b)) == (head + NonCandles(a[1..])) + NonCandles(b);
    }
  }

  /** Removing a candle entry (by its key) leaves every ticker and trades entry
      in place. */
  lemma RemoveCandleKeepsFeeds(subs: seq<Subscription>, k: Key)
    requires k.CandleKey?
    ensures NonCandles(RemoveFirst(subs, k)) == NonCandles(subs)
  {
    if Has(subs, k) {
      var i := Find(subs, k);
      var rest := [subs[i]] + subs[i + 1..];
      assert subs == subs[..i] + rest;
      assert rest[0].CandleSub? && rest[1..] == subs[i + 1..];
      NonCandlesAppend(subs[..i], rest);
      NonCandlesAppend(subs[..i], subs[i + 1..]);
    }
  }

  /** `unsubscribeCandle` throws a TypeError, changing nothing, exactly when
      the formatted candle is subscribed and either the lookup under the symbol
      as given finds nothing (which needs a '-' in the symbol) or the found
      candle's emulator has not finished launching. */
  lemma UnsubscribeCandleThrows(l: Ledger, isOpen: bool, symbol: string, interval: string)
    ensures var out := UnsubscribeCandle(l, isOpen, symbol, interval);
            && (out.1 == TypeErrorThrown ==> out.0 == l)
            && (out.1 == TypeErrorThrown <==>
                  Has(l.subs, CandleKey(FormatSymbol(symbol), interval))
                  && (!Has(l.subs, CandleKey(symbol, interval))
                      || l.subs[Find(l.subs, CandleKey(symbol, interval))].emulator !in l.launched))
            && (out.1 == TypeErrorThrown && '-' !in symbol ==>
                  Has(l.subs, CandleKey(symbol, interval))
                  && l.subs[Find(l.subs, CandleKey(symbol, interval))].emulator !in l.launched)
  {
  }

  /** `unsubscribeCandle` takes out the entry at the candle's position among
      the candles, and at most one ticker entry on the formatted symbol, that
      one only when exactly one candle on the symbol remains and the socket is
      open. */
  lemma UnsubscribeCandleFeeds(l: Ledger, isOpen: bool, symbol: string, interval: string)
    ensures var (r, exit) := UnsubscribeCandle(l, isOpen, symbol, interval);
            var removed := RemoveCandleAsWritten(l.subs, FormatSymbol(symbol), interval);
            exit != TypeErrorThrown ==>
              && (r.subs == removed || r.subs == RemoveFirst(removed, TickerKey(FormatSymbol(symbol))))
              && (r.subs != removed ==> isOpen && CandleCount(removed, FormatSymbol(symbol)) == 1)
  {
    var fs := FormatSymbol(symbol);
    var ck := CandleKey(fs, interval);
    if Has(l.subs, ck) && Has(l.subs, CandleKey(symbol, interval))
       && l.subs[Find(l.subs, CandleKey(symbol, interval))].emulator in l.launched {
      var emulator := l.subs[Find(l.subs, CandleKey(symbol, interval))].emulator;
      var removed := RemoveCandle(l.(effects := l.effects + [EmulatorReset(emulator)]), fs, interval);
      if CandleCount(removed.subs, fs) == 1 && isOpen {
        assert Unsubscribe(removed, TickerKey(fs)).subs == RemoveFirst(removed.subs, TickerKey(fs));
      }
    }
  }

  /** On an empty client, `subscribeCandle` builds the trades feed (with
      `forCandle`) followed by the candle. */
  lemma SubscribeCandleOnEmpty(l: Ledger, isOpen: bool, readyState: nat, symbol: string, interval: string)
    requires l.subs == []
    ensures SubscribeCandle(l, isOpen, readyState, symbol, interval, TradesReq(symbol, true)).subs
            == [TradesSub(symbol, true), CandleSub(FormatSymbol(symbol), interval, l.nextEmulator)]
  {
  }

  /** On that list, the as-written removal splices out position 0, the trades
      feed, and keeps the candle. */
  lemma RemoveCandleAfterFeed(symbol: string, interval: string, id: nat)
    ensures RemoveCandleAsWritten([TradesSub(symbol, true), CandleSub(symbol, interval, id)], symbol, interval)
            == [CandleSub(symbol, interval, id)]
  {
    var subs := [TradesSub(symbol, true), CandleSub(symbol, interval, id)];
    assert Matches(subs[1], CandleKey(symbol, interval));
    assert subs[1..][1..] == [];
    assert CandlesOnly(subs) == [subs[1]];
  }

  /** `unsubscribeCandle` on a client holding just the trades feed and then
      the candle. While the emulator's launch is pending, `reset()` throws and
      nothing changes. Once it has finished, the trades feed goes and the
      candle stays; the remaining candle is counted, and the ticker then
      unsubscribed is not there, so no unsubscribe frame is queued (and a
      closed socket throws). */
  lemma UnsubscribeCandleOnFeedAndCandle(s: Ledger, isOpen: bool, symbol: string, interval: string, id: nat)
    requires s.subs == [TradesSub(symbol, true), CandleSub(symbol, interval, id)] && '-' !in symbol
    ensures id !in s.launched ==> UnsubscribeCandle(s, isOpen, symbol, interval) == (s, TypeErrorThrown)
    ensures var (r, exit) := UnsubscribeCandle(s, isOpen, symbol, interval);
            id in s.launched ==>
              && r.subs == [CandleSub(symbol, interval, id)]
              && r.jobs == s.jobs
              && exit == (if isOpen then Returned else NotConnectedError)
  {
    var c := CandleSub(symbol, interval, id);
    RemoveCandleAfterFeed(symbol, interval, id);
    assert Matches(s.subs[1], CandleKey(symbol, interval)) && !Matches(s.subs[0], CandleKey(symbol, interval));
    assert Find(s.subs, CandleKey(symbol, interval)) == 1;
    var removed := RemoveCandle(s.(effects := s.effects + [EmulatorReset(id)]), symbol, interval);
    assert removed.subs == [c];
    assert CandleCount([c], symbol) == 1;
    assert !Has([c], TickerKey(symbol));
  }

  /** `subscribeCandle` then `unsubscribeCandle` on an empty client. In the
      same turn the new emulator's fetch is still pending, so the unsubscribe
      throws and both entries stay. After the launch has finished, the candle
      stays subscribed and its trades feed is gone, with no unsubscribe
      frame. */
  lemma UnsubscribeCandleAfterSubscribe(l: Ledger, isOpen: bool, readyState: nat, isOpenLater: bool,
                                        symbol: string, interval: string)
    requires l.subs == [] && '-' !in symbol && LaunchesKnown(l)
    ensures var s := SubscribeCandle(l, isOpen, readyState, symbol, interval, TradesReq(symbol, true));
            && s.subs == [TradesSub(symbol, true), CandleSub(symbol, interval, l.nextEmulator)]
            && UnsubscribeCandle(s, isOpenLater, symbol, interval) == (s, TypeErrorThrown)
    ensures var s := SubscribeCandle(l, isOpen, readyState, symbol, interval, TradesReq(symbol, true));
            var (r, exit) := UnsubscribeCandle(s.(launched := s.launched + {l.nextEmulator}), isOpenLater, symbol, interval);
            && r.subs == [CandleSub(symbol, interval, l.nextEmulator)]
            && r.jobs == s.jobs
            && exit == (if isOpenLater then Returned else NotConnectedError)
  {
    var s := SubscribeCandle(l, isOpen, readyState, symbol, interval, TradesReq(symbol, true));
    SubscribeCandleOnEmpty(l, isOpen, readyState, symbol, interval);
    assert l.nextEmulator !in s.launched;
    UnsubscribeCandleOnFeedAndCandle(s, isOpenLater, symbol, interval, l.nextEmulator);
    UnsubscribeCandleOnFeedAndCandle(s.(launched := s.launched + {l.nextEmulator}), isOpenLater, symbol, interval, l.nextEmulator);
  }

  // ---------------------------------------------------------------------
  // Staleness and the periodic re-subscription

  /** The last-seen time of each cached ticker. */
  function Timestamps(cache: map<string, Ticker>): (m: map<string, int>)
    ensures m.Keys == cache.Keys
    ensures forall p :: p in m ==> m[p] == cache[p].timestamp
  {
    map p | p in cache :: cache[p].timestamp
  }

  /** A feed is stale when nothing was ever seen on it, or the last thing seen
      is at least 6 minutes older than `now`. */
  predicate IsStale(lastSeen: map<string, int>, p: string, now: int)
  {
    p !in lastSeen || now - lastSeen[p] >= StaleAfterMs
  }

  /** The key of the ticker feed (`tickers`) or the trades feed of a symbol. */
  function FeedKey(tickers: bool, p: string): Key
  {
    if tickers then TickerKey(p) else TradesKey(p)
  }

  lemma HasSnoc(subs: seq<Subscription>, x: Subscription)
    ensures forall k :: Has(subs + [x], k) <==> Has(subs, k) || Matches(x, k)
  {
    forall k | Has(subs + [x], k)
      ensures Has(subs, k) || Matches(x, k)
    {
      var i :| 0 <= i < |subs + [x]| && Matches((subs + [x])[i], k);
      if i < |subs| {
        assert Matches(subs[i], k);
      }
    }
    forall k | Has(subs, k)
      ensures Has(subs + [x], k)
    {
      var i :| 0 <= i < |subs| && Matches(subs[i], k);
      assert Matches((subs + [x])[i], k);
    }
    forall k | Matches(x, k)
      ensures Has(subs + [x], k)
    {
      assert Matches((subs + [x])[|subs|], k);
    }
  }

  /** The filter of `shouldReconnectTickers` / `shouldReconnectTrades`: the
      symbols of the feed's entries, in list order, whose feed is stale. A
      symbol is selected exactly when it has an entry and is stale. */
  function StaleFeeds(subs: seq<Subscription>, tickers: bool, lastSeen: map<string, int>, now: int): (r: seq<string>)
    ensures |r| <= |subs|
    ensures forall p :: p in r <==> Has(subs, FeedKey(tickers, p)) && IsStale(lastSeen, p, now)
    decreases |subs|
  {
    if subs == [] then []
    else
      var x := subs[|subs| - 1];
      var front := subs[..|subs| - 1];
      assert subs == front + [x];
      HasSnoc(front, x);
      StaleFeeds(front, tickers, lastSeen, now)
        + (if Matches(x, FeedKey(tickers, x.symbol)) && IsStale(lastSeen, x.symbol, now) then [x.symbol] else [])
  }

  /** One stale ticker pair: `unsubscribeTicker(pair)` then `subscribeTicker(pair)`. */
  function RefreshTicker(l: Ledger, isOpen: bool, readyState: nat, p: string): Ledger
  {
    Subscribe(Unsubscribe(l, TickerKey(p)), isOpen, readyState, TickerReq(p))
  }

  function RefreshTickers(l: Ledger, isOpen: bool, readyState: nat, pairs: seq<string>): Ledger
    decreases |pairs|
  {
    if pairs == [] then l
    else RefreshTicker(RefreshTickers(l, isOpen, readyState, pairs[..|pairs| - 1]), isOpen, readyState, pairs[|pairs| - 1])
  }

  /** The candle entries on `p`, each announced on `reconnect-candle`. */
  function CandleTopics(subs: seq<Subscription>, p: string): (r: seq<Effect>)
    ensures |r| == CandleCount(subs, p)
    ensures forall i :: 0 <= i < |r| ==> r[i].Published? && r[i].topic.ReconnectCandleTopic?
                                         && r[i].topic.candle in subs && r[i].topic.candle.symbol == p
    decreases |subs|
  {
    if subs == [] then []
    else
      (if subs[0].CandleSub? && subs[0].symbol == p then [Published(ReconnectCandleTopic(subs[0]))] else [])
        + CandleTopics(subs[1..], p)
  }

  /** One stale trades pair: capture the entry's `forCandle`, unsubscribe,
      subscribe again with that flag, and when it is set announce every candle
      on the pair. (The pair always has an entry here: see
      `RefreshTradesKeepsEntries`.) */
  function RefreshTrade(l: Ledger, isOpen: bool, readyState: nat, p: string): Ledger
  {
    if !Has(l.subs, TradesKey(p)) then l
    else
      var fc := l.subs[Find(l.subs, TradesKey(p))].forCandle;
      var r := Subscribe(Unsubscribe(l, TradesKey(p)), isOpen, readyState, TradesReq(p, fc));
      if fc then r.(effects := r.effects + CandleTopics(r.subs, p)) else r
  }

  function RefreshTrades(l: Ledger, isOpen: bool, readyState: nat, pairs: seq<string>): Ledger
    decreases |pairs|
  {
    if pairs == [] then l
    else RefreshTrade(RefreshTrades(l, isOpen, readyState, pairs[..|pairs| - 1]), isOpen, readyState, pairs[|pairs| - 1])
  }

  /** One more pair of the sweep, for a loop over `pairs`. */
  lemma RefreshTickersStep(l: Ledger, isOpen: bool, readyState: nat, pairs: seq<string>, i: nat)
    requires i < |pairs|
    ensures RefreshTickers(l, isOpen, readyState, pairs[..i + 1])
            == RefreshTicker(RefreshTickers(l, isOpen, readyState, pairs[..i]), isOpen, readyState, pairs[i])
  {
    assert pairs[..i + 1][..i] == pairs[..i];
  }

  lemma RefreshTradesStep(l: Ledger, isOpen: bool, readyState: nat, pairs: seq<string>, i: nat)
    requires i < |pairs|
    ensures RefreshTrades(l, isOpen, readyState, pairs[..i + 1])
            == RefreshTrade(RefreshTrades(l, isOpen, readyState, pairs[..i]), isOpen, readyState, pairs[i])
  {
    assert pairs[..i + 1][..i] == pairs[..i];
  }

  /** At most one ticker entry per symbol. */
  ghost predicate UniqueTickers(subs: seq<Subscription>)
  {
    forall p :: multiset(subs)[TickerSub(p)] <= 1
  }

  /** At most one trades entry per symbol (whatever its flag). */
  ghost predicate UniqueTrades(subs: seq<Subscription>)
  {
    forall p :: multiset(subs)[TradesSub(p, false)] + multiset(subs)[TradesSub(p, true)] <= 1
  }

  lemma HasFeed(subs: seq<Subscription>, p: string)
    ensures Has(subs, TickerKey(p)) <==> TickerSub(p) in subs
    ensures Has(subs, TradesKey(p)) <==> TradesSub(p, false) in subs || TradesSub(p, true) in subs
  {
    if TickerSub(p) in subs {
      var i :| 0 <= i < |subs| && subs[i] == TickerSub(p);
      assert Matches(subs[i], TickerKey(p));
    }
    if TradesSub(p, false) in subs || TradesSub(p, true) in subs {
      var i :| 0 <= i < |subs| && (subs[i] == TradesSub(p, false) || subs[i] == TradesSub(p, true));
      assert Matches(subs[i], TradesKey(p));
    }
  }

  lemma AppendTwo(s: seq<Job>, a: Job, b: Job)
    ensures s + [a] + [b] == s + [a, b]
  {
  }

  /** Unsubscribing a held feed takes out its first entry and queues the
      unsubscribe job for exactly that entry. */
  lemma UnsubscribeTakesEntry(l: Ledger, k: Key)
    requires !k.CandleKey? && Has(l.subs, k)
    ensures var e := l.subs[Find(l.subs, k)];
            var u := Unsubscribe(l, k);
            && multiset(u.subs) + multiset{e} == multiset(l.subs)
            && u.jobs == l.jobs + [UnsubscribeJob(RequestOf(e))]
  {
  }

  /** Refreshing a ticker pair that has exactly one entry moves that entry to
      the end of the list: the same entries, one unsubscribe job and at most
      one subscribe job. */
  lemma RefreshTickerKeepsEntries(l: Ledger, isOpen: bool, readyState: nat, p: string)
    requires UniqueTickers(l.subs) && Has(l.subs, TickerKey(p))
    ensures var r := RefreshTicker(l, isOpen, readyState, p);
            && multiset(r.subs) == multiset(l.subs)
            && r.subs[|r.subs| - 1] == TickerSub(p)
            && (r.jobs == l.jobs + [UnsubscribeJob(TickerReq(p))]
                || r.jobs == l.jobs + [UnsubscribeJob(TickerReq(p)), SubscribeJob(TickerReq(p))])
  {
    var k := TickerKey(p);
    var u := Unsubscribe(l, k);
    HasFeed(l.subs, p);
    UnsubscribeTakesEntry(l, k);
    assert l.subs[Find(l.subs, k)] == TickerSub(p);
    assert multiset(u.subs)[TickerSub(p)] == 0;
    HasFeed(u.subs, p);
    SubscribeAppendsOnce(u, isOpen, readyState, TickerReq(p));
    var r := Subscribe(u, isOpen, readyState, TickerReq(p));
    assert r.subs == u.subs + [TickerSub(p)];
    assert u.jobs == l.jobs + [UnsubscribeJob(TickerReq(p))];
    AppendTwo(l.jobs, UnsubscribeJob(TickerReq(p)), SubscribeJob(TickerReq(p)));
  }

  /** The ticker part of `shouldReconnectDeadSockets`: with one entry per
      ticker symbol, re-subscribing any selection of subscribed pairs keeps
      exactly the same entries. */
  lemma {:induction false} RefreshTickersKeepsEntries(l: Ledger, isOpen: bool, readyState: nat, pairs: seq<string>)
    requires UniqueTickers(l.subs)
    requires forall p :: p in pairs ==> Has(l.subs, TickerKey(p))
    ensures multiset(RefreshTickers(l, isOpen, readyState, pairs).subs) == multiset(l.subs)
    decreases |pairs|
  {
    if pairs != [] {
      var front := pairs[..|pairs| - 1];
      var p := pairs[|pairs| - 1];
      assert forall q :: q in front ==> q in pairs;
      RefreshTickersKeepsEntries(l, isOpen, readyState, front);
      var mid := RefreshTickers(l, isOpen, readyState, front);
      HasFeed(l.subs, p);
      HasFeed(mid.subs, p);
      assert UniqueTickers(mid.subs) by {
        forall q ensures multiset(mid.subs)[TickerSub(q)] <= 1 {
          assert multiset(mid.subs)[TickerSub(q)] == multiset(l.subs)[TickerSub(q)];
        }
      }
      RefreshTickerKeepsEntries(mid, isOpen, readyState, p);
    }
  }

  /** Refreshing a trades pair that has exactly one entry puts back the same
      entry, with its `forCandle` flag. */
  lemma RefreshTradeKeepsEntries(l: Ledger, isOpen: bool, readyState: nat, p: string)
    requires UniqueTrades(l.subs) && Has(l.subs, TradesKey(p))
    ensures var r := RefreshTrade(l, isOpen, readyState, p);
            && multiset(r.subs) == multiset(l.subs)
            && r.subs[|r.subs| - 1] == l.subs[Find(l.subs, TradesKey(p))]
  {
    var k := TradesKey(p);
    var e := l.subs[Find(l.subs, k)];
    var u := Unsubscribe(l, k);
    assert e == TradesSub(p, e.forCandle);
    UnsubscribeTakesEntry(l, k);
    HasFeed(l.subs, p);
    HasFeed(u.subs, p);
    assert multiset(l.subs)[TradesSub(p, false)] + multiset(l.subs)[TradesSub(p, true)] <= 1;
    assert multiset(u.subs)[TradesSub(p, false)] + multiset(u.subs)[TradesSub(p, true)] == 0;
    SubscribeAppendsOnce(u, isOpen, readyState, TradesReq(p, e.forCandle));
    var s := Subscribe(u, isOpen, readyState, TradesReq(p, e.forCandle));
    assert s.subs == u.subs + [e];
    var r := RefreshTrade(l, isOpen, readyState, p);
    assert r.subs == s.subs;
    assert r.subs[|u.subs|] == e;
  }

  /** The trades part of `shouldReconnectDeadSockets`: with one trades entry
      per symbol, re-subscribing subscribed pairs keeps exactly the same
      entries, `forCandle` flags included. */
  lemma {:induction false} RefreshTradesKeepsEntries(l: Ledger, isOpen: bool, readyState: nat, pairs: seq<string>)
    requires UniqueTrades(l.subs)
    requires forall p :: p in pairs ==> Has(l.subs, TradesKey(p))
    ensures multiset(RefreshTrades(l, isOpen, readyState, pairs).subs) == multiset(l.subs)
    decreases |pairs|
  {
    if pairs != [] {
      var front := pairs[..|pairs| - 1];
      var p := pairs[|pairs| - 1];
      assert forall q :: q in front ==> q in pairs;
      RefreshTradesKeepsEntries(l, isOpen, readyState, front);
      var mid := RefreshTrades(l, isOpen, readyState, front);
      HasFeed(l.subs, p);
      HasFeed(mid.subs, p);
      assert UniqueTrades(mid.subs) by {
        forall q ensures multiset(mid.subs)[TradesSub(q, false)] + multiset(mid.subs)[TradesSub(q, true)] <= 1 {
          assert multiset(mid.subs)[TradesSub(q, false)] == multiset(l.subs)[TradesSub(q, false)];
          assert multiset(mid.subs)[TradesSub(q, true)] == multiset(l.subs)[TradesSub(q, true)];
        }
      }
      RefreshTradeKeepsEntries(mid, isOpen, readyState, p);
    }
  }

  // ---------------------------------------------------------------------
  // Replay on reconnect

  /** The ticker entries only, in order. */
  function TickersOnly(subs: seq<Subscription>): (r: seq<Subscription>)
    ensures forall x :: x in r <==> x in subs && x.TickerSub?
    decreases |subs|
  {
    if subs == [] then []
    else
      var x := subs[|subs| - 1];
      assert subs == subs[..|subs| - 1] + [x];
      TickersOnly(subs[..|subs| - 1]) + (if x.TickerSub? then [x] else [])
  }

  /** The replay loop of the ticker-only client: every ticker entry of the old
      list is subscribed again, in order; every other entry is dropped. */
  function ReplayTickers(l: Ledger, isOpen: bool, readyState: nat, prev: seq<Subscription>): Ledger
    decreases |prev|
  {
    if prev == [] then l
    else
      var mid := ReplayTickers(l, isOpen, readyState, prev[..|prev| - 1]);
      var x := prev[|prev| - 1];
      if x.TickerSub? then Subscribe(mid, isOpen, readyState, TickerReq(x.symbol)) else mid
  }

  /** Replaying into the emptied list rebuilds exactly the ticker entries, in
      their previous order, when no ticker symbol was listed twice. */
  lemma {:induction false} ReplayTickersRestoresTickers(l: Ledger, isOpen: bool, readyState: nat, prev: seq<Subscription>)
    requires l.subs == [] && UniqueTickers(prev)
    ensures ReplayTickers(l, isOpen, readyState, prev).subs == TickersOnly(prev)
    decreases |prev|
  {
    if prev != [] {
      var front := prev[..|prev| - 1];
      var x := prev[|prev| - 1];
      assert prev == front + [x];
      assert UniqueTickers(front) by {
        forall p ensures multiset(front)[TickerSub(p)] <= 1 {
          assert multiset(prev) == multiset(front) + multiset{x};
        }
      }
      ReplayTickersRestoresTickers(l, isOpen, readyState, front);
      var mid := ReplayTickers(l, isOpen, readyState, front);
      if x.TickerSub? {
        assert multiset(prev)[TickerSub(x.symbol)] <= 1;
        assert multiset(prev) == multiset(front) + multiset{x};
        assert TickerSub(x.symbol) !in front;
        HasFeed(mid.subs, x.symbol);
        SubscribeAppendsOnce(mid, isOpen, readyState, TickerReq(x.symbol));
      }
    }
  }

  /** One entry of the old list in the replay loop of the full client, with
      the emulator reset succeeding: a ticker is subscribed again, a trades
      entry only when it is not a candle's feed, and a candle resets its old
      emulator and is subscribed again under its stored symbol (which
      subscribes its trades feed). */
  function ReplayStep(l: Ledger, isOpen: bool, readyState: nat, x: Subscription): (r: Ledger)
    ensures r.launched == l.launched
  {
    match x
    case TickerSub(sym) => Subscribe(l, isOpen, readyState, TickerReq(sym))
    case TradesSub(sym, fc) => if fc then l else Subscribe(l, isOpen, readyState, TradesReq(sym, false))
    case CandleSub(sym, iv, em) =>
      SubscribeCandle(l.(effects := l.effects + [EmulatorReset(em)]), isOpen, readyState, sym, iv, TradesReq(sym, true))
  }

  /** The replay as evidently intended: every candle's reset succeeds, even
      one whose emulator is still launching. */
  function Replay(l: Ledger, isOpen: bool, readyState: nat, prev: seq<Subscription>): (r: Ledger)
    ensures r.launched == l.launched
    decreases |prev|
  {
    if prev == [] then l
    else ReplayStep(Replay(l, isOpen, readyState, prev[..|prev| - 1]), isOpen, readyState, prev[|prev| - 1])
  }

  /** One entry of the replay as written: a candle whose emulator has not
      finished launching throws a TypeError at `emulator.reset()`, before
      anything is subscribed again. */
  function ReplayStepAsWritten(l: Ledger, isOpen: bool, readyState: nat, x: Subscription): (Ledger, Exit)
  {
    if x.CandleSub? && x.emulator !in l.launched then (l, TypeErrorThrown)
    else (ReplayStep(l, isOpen, readyState, x), Returned)
  }

  /** `restartPreviousSubscriptions`' loop as written: the first throw ends
      the loop, and with it the restart, leaving the list rebuilt so far. */
  function ReplayAsWritten(l: Ledger, isOpen: bool, readyState: nat, prev: seq<Subscription>): (Ledger, Exit)
    decreases |prev|
  {
    if prev == [] then (l, Returned)
    else
      var (mid, exit) := ReplayAsWritten(l, isOpen, readyState, prev[..|prev| - 1]);
      if exit != Returned then (mid, exit)
      else ReplayStepAsWritten(mid, isOpen, readyState, prev[|prev| - 1])
  }

  /** The position of the first candle whose emulator has not finished
      launching, `|prev|` for none. */
  function FirstPending(prev: seq<Subscription>, launched: set<nat>): (i: nat)
    ensures i <= |prev|
    ensures i < |prev| ==> prev[i].CandleSub? && prev[i].emulator !in launched
    ensures forall j :: 0 <= j < i ==> !(prev[j].CandleSub? && prev[j].emulator !in launched)
    decreases |prev|
  {
    if prev == [] then 0
    else if prev[0].CandleSub? && prev[0].emulator !in launched then 0
    else 1 + FirstPending(prev[1..], launched)
  }

  /** The replay as written is the intended replay of the entries before the
      first candle still launching: it runs the whole list and returns when
      there is none, and otherwise stops there with a TypeError. */
  lemma {:induction false} ReplayAsWrittenStopsAtPending(l: Ledger, isOpen: bool, readyState: nat, prev: seq<Subscription>)
    ensures var i := FirstPending(prev, l.launched);
            ReplayAsWritten(l, isOpen, readyState, prev)
            == if i == |prev| then (Replay(l, isOpen, readyState, prev), Returned)
               else (Replay(l, isOpen, readyState, prev[..i]), TypeErrorThrown)
    decreases |prev|
  {
    if prev != [] {
      var front := prev[..|prev| - 1];
      var x := prev[|prev| - 1];
      ReplayAsWrittenStopsAtPending(l, isOpen, readyState, front);
      var i := FirstPending(prev, l.launched);
      var j := FirstPending(front, l.launched);
      assert forall k :: 0 <= k < |front| ==> front[k] == prev[k];
      if j < |front| {
        assert front[..j] == prev[..i];
      } else {
        assert Replay(l, isOpen, readyState, front).launched == l.launched;
        if i == |front| {
          assert prev[..i] == front;
        }
      }
    }
  }

  /** Once the replay as written has thrown, the later entries change nothing. */
  lemma ReplayAsWrittenHalted(l: Ledger, isOpen: bool, readyState: nat, prev: seq<Subscription>, i: nat)
    requires i <= |prev| && ReplayAsWritten(l, isOpen, readyState, prev[..i]).1 != Returned
    ensures ReplayAsWritten(l, isOpen, readyState, prev) == ReplayAsWritten(l, isOpen, readyState, prev[..i])
  {
    ReplayAsWrittenStopsAtPending(l, isOpen, readyState, prev[..i]);
    ReplayAsWrittenStopsAtPending(l, isOpen, readyState, prev);
    var f := FirstPending(prev[..i], l.launched);
    FirstPendingPrefix(prev, l.launched, i);
    assert prev[..i][..f] == prev[..f];
  }

  /** A pending candle within a prefix is the first pending candle of the
      whole list too. */
  lemma FirstPendingPrefix(prev: seq<Subscription>, launched: set<nat>, i: nat)
    requires i <= |prev| && FirstPending(prev[..i], launched) < i
    ensures FirstPending(prev, launched) == FirstPending(prev[..i], launched)
  {
    assert forall j :: 0 <= j < i ==> prev[..i][j] == prev[j];
  }

  /** One more entry of either replay, for a loop over `prev`. */
  lemma ReplayPrefixStep(l: Ledger, isOpen: bool, readyState: nat, prev: seq<Subscription>, i: nat)
    requires i < |prev|
    ensures Replay(l, isOpen, readyState, prev[..i + 1]) == ReplayStep(Replay(l, isOpen, readyState, prev[..i]), isOpen, readyState, prev[i])
    ensures var (mid, exit) := ReplayAsWritten(l, isOpen, readyState, prev[..i]);
            exit == Returned ==>
              ReplayAsWritten(l, isOpen, readyState, prev[..i + 1]) == ReplayStepAsWritten(mid, isOpen, readyState, prev[i])
  {
    assert prev[..i + 1][..i] == prev[..i];
  }

  /** An entry without its emulator handle (a replayed candle gets a new one). */
  datatype Entry = TickerEntry(symbol: string) | TradesEntry(symbol: string, forCandle: bool)
                 | CandleEntry(symbol: string, interval: string)

  function Erase(x: Subscription): Entry
  {
    match x
    case TickerSub(sym) => TickerEntry(sym)
    case TradesSub(sym, fc) => TradesEntry(sym, fc)
    case CandleSub(sym, iv, _) => CandleEntry(sym, iv)
  }

  function Entries(subs: seq<Subscription>): set<Entry>
  {
    set x | x in subs :: Erase(x)
  }

  /** What replaying a prefix of the old list has rebuilt: every entry but the
      candle feeds, plus a candle feed for each candle. */
  function Restored(p: seq<Subscription>): set<Entry>
  {
    (set x | x in p && !(x.TradesSub? && x.forCandle) :: Erase(x))
      + (set x | x in p && x.CandleSub? :: TradesEntry(x.symbol, true))
  }

  /** The lists the replay rebuilds exactly: symbols without '-' on the
      candles, every candle has its `forCandle` trades entry, every
      `forCandle` trades entry has a candle, and no plain trades entry shares
      a symbol with a candle. The client's own operations can leave a list
      outside this shape: a failed candle feed comes back as a plain trades
      entry after its candle (`RetriedCandleFeedList`), and the replay turns
      that entry back into a candle feed (`ReplayFlipsRetriedFeed`). */
  ghost predicate Replayable(prev: seq<Subscription>)
  {
    && (forall x :: x in prev && x.CandleSub? ==> '-' !in x.symbol && TradesSub(x.symbol, true) in prev)
    && (forall x :: x in prev && x.TradesSub? && x.forCandle ==>
          exists c :: c in prev && c.CandleSub? && c.symbol == x.symbol)
    && (forall x, c :: x in prev && c in prev && x.TradesSub? && !x.forCandle && c.CandleSub? ==> x.symbol != c.symbol)
  }

  lemma EntriesSnoc(s: seq<Subscription>, x: Subscription)
    ensures Entries(s + [x]) == Entries(s) + {Erase(x)}
  {
    assert forall y :: y in s + [x] <==> y in s || y == x;
  }

  lemma RestoredSnoc(p: seq<Subscription>, x: Subscription)
    ensures Restored(p + [x]) == Restored(p)
              + (if x.TradesSub? && x.forCandle then {} else {Erase(x)})
              + (if x.CandleSub? then {TradesEntry(x.symbol, true)} else {})
  {
    assert forall y :: y in p + [x] <==> y in p || y == x;
  }

  lemma HasViaEntries(s: seq<Subscription>, sym: string, iv: string)
    ensures Has(s, TickerKey(sym)) <==> TickerEntry(sym) in Entries(s)
    ensures Has(s, TradesKey(sym)) <==> TradesEntry(sym, false) in Entries(s) || TradesEntry(sym, true) in Entries(s)
    ensures Has(s, CandleKey(sym, iv)) <==> CandleEntry(sym, iv) in Entries(s)
  {
    forall k | Has(s, k) ensures Erase(s[Find(s, k)]) in Entries(s) { }
    if TickerEntry(sym) in Entries(s) {
      var x :| x in s && Erase(x) == TickerEntry(sym);
      var i :| 0 <= i < |s| && s[i] == x;
      assert Matches(s[i], TickerKey(sym));
    }
    if TradesEntry(sym, false) in Entries(s) || TradesEntry(sym, true) in Entries(s) {
      var x :| x in s && (Erase(x) == TradesEntry(sym, false) || Erase(x) == TradesEntry(sym, true));
      var i :| 0 <= i < |s| && s[i] == x;
      assert Matches(s[i], TradesKey(sym));
    }
    if CandleEntry(sym, iv) in Entries(s) {
      var x :| x in s && Erase(x) == CandleEntry(sym, iv);
      var i :| 0 <= i < |s| && s[i] == x;
      assert Matches(s[i], CandleKey(sym, iv));
    }
  }

  /** What subscribing does to the list, in entries. */
  lemma SubscribeEntries(l: Ledger, isOpen: bool, readyState: nat, req: Request)
    ensures Entries(Subscribe(l, isOpen, readyState, req).subs)
            == if Has(l.subs, KeyOf(req)) then Entries(l.subs) else Entries(l.subs) + {Erase(EntryOf(req))}
  {
    if !Has(l.subs, KeyOf(req)) {
      EntriesSnoc(l.subs, EntryOf(req));
    }
  }

  /** A candle feed in `Restored(p)` comes from a candle of `p`. */
  lemma RestoredFeed(p: seq<Subscription>, sym: string)
    requires TradesEntry(sym, true) in Restored(p)
    ensures exists c :: c in p && c.CandleSub? && c.symbol == sym
  {
  }

  /** A plain trades entry in `Restored(p)` comes from a plain trades entry of `p`. */
  lemma RestoredPlain(p: seq<Subscription>, sym: string)
    requires TradesEntry(sym, false) in Restored(p)
    ensures TradesSub(sym, false) in p
  {
    var y :| y in p && !(y.TradesSub? && y.forCandle) && Erase(y) == TradesEntry(sym, false);
  }

  /** A key held by a list is held by every extension of it. */
  lemma HasPrefix(a: seq<Subscription>, b: seq<Subscription>, k: Key)
    requires a <= b && Has(a, k)
    ensures Has(b, k)
  {
    var i :| 0 <= i < |a| && Matches(a[i], k);
    assert b[i] == a[i];
  }

  /** The list part of subscribing a ticker or trades feed. */
  lemma SubscribeSubs(l: Ledger, isOpen: bool, readyState: nat, req: Request)
    ensures Subscribe(l, isOpen, readyState, req).subs
            == if Has(l.subs, KeyOf(req)) then l.subs else l.subs + [EntryOf(req)]
  {
  }

  /** A candle that is not held yet is replayed as its feed (when the symbol
      has no trades entry) followed by the candle itself. */
  lemma ReplayNewCandle(mid: Ledger, isOpen: bool, readyState: nat, x: Subscription)
    requires x.CandleSub? && '-' !in x.symbol && !Has(mid.subs, CandleKey(x.symbol, x.interval))
    ensures Entries(ReplayStep(mid, isOpen, readyState, x).subs)
            == Entries(mid.subs) + (if Has(mid.subs, TradesKey(x.symbol)) then {} else {TradesEntry(x.symbol, true)})
                 + {CandleEntry(x.symbol, x.interval)}
  {
    var sym, iv := x.symbol, x.interval;
    assert FormatSymbol(sym) == sym;
    var reset := mid.(effects := mid.effects + [EmulatorReset(x.emulator)]);
    var launched := reset.(effects := reset.effects + [EmulatorLaunched(reset.nextEmulator, sym, iv)],
                           nextEmulator := reset.nextEmulator + 1);
    var fed := Subscribe(launched, isOpen, readyState, TradesReq(sym, true));
    SubscribeSubs(launched, isOpen, readyState, TradesReq(sym, true));
    var y := CandleSub(sym, iv, reset.nextEmulator);
    assert ReplayStep(mid, isOpen, readyState, x).subs == fed.subs + [y];
    EntriesSnoc(fed.subs, y);
    if !Has(mid.subs, TradesKey(sym)) {
      EntriesSnoc(mid.subs, TradesSub(sym, true));
    }
  }

  lemma ReplayCandleEntries(mid: Ledger, isOpen: bool, readyState: nat, front: seq<Subscription>, x: Subscription)
    requires x.CandleSub? && Entries(mid.subs) == Restored(front)
    requires '-' !in x.symbol && TradesEntry(x.symbol, false) !in Restored(front)
    ensures Entries(ReplayStep(mid, isOpen, readyState, x).subs) == Restored(front + [x])
  {
    var sym, iv := x.symbol, x.interval;
    RestoredSnoc(front, x);
    HasViaEntries(mid.subs, sym, iv);
    if !Has(mid.subs, CandleKey(sym, iv)) {
      ReplayNewCandle(mid, isOpen, readyState, x);
    } else {
      assert FormatSymbol(sym) == sym;
      assert ReplayStep(mid, isOpen, readyState, x).subs == mid.subs;
      var c :| c in front && !(c.TradesSub? && c.forCandle) && Erase(c) == CandleEntry(sym, iv);
      assert c.CandleSub? && c.symbol == sym;
      assert TradesEntry(c.symbol, true) in (set y | y in front && y.CandleSub? :: TradesEntry(y.symbol, true));
    }
  }


  lemma ReplayFeedEntries(mid: Ledger, isOpen: bool, readyState: nat, front: seq<Subscription>, x: Subscription)
    requires !x.CandleSub? && Entries(mid.subs) == Restored(front)
    requires x.TradesSub? && !x.forCandle ==> TradesEntry(x.symbol, true) !in Restored(front)
    ensures Entries(ReplayStep(mid, isOpen, readyState, x).subs) == Restored(front + [x])
  {
    RestoredSnoc(front, x);
    HasViaEntries(mid.subs, x.symbol, "");
    if x.TickerSub? {
      SubscribeEntries(mid, isOpen, readyState, TickerReq(x.symbol));
    } else if !x.forCandle {
      SubscribeEntries(mid, isOpen, readyState, TradesReq(x.symbol, false));
    }
  }

  /** The loop invariant of the replay: after replaying a prefix of a
      replayable list, the rebuilt list holds exactly `Restored(prefix)`. */
  lemma {:induction false} ReplayInvariant(l: Ledger, isOpen: bool, readyState: nat, p: seq<Subscription>, whole: seq<Subscription>)
    requires l.subs == [] && Replayable(whole)
    requires |p| <= |whole| && p == whole[..|p|]
    ensures Entries(Replay(l, isOpen, readyState, p).subs) == Restored(p)
    decreases |p|
  {
    if p == [] {
      assert Entries(l.subs) == {};
    } else {
      var front := p[..|p| - 1];
      var x := p[|p| - 1];
      assert p == front + [x];
      assert front == whole[..|front|];
      assert x in whole by { assert x == whole[|p| - 1]; }
      assert forall y :: y in front ==> y in whole by {
        forall y | y in front ensures y in whole {
          var i :| 0 <= i < |front| && front[i] == y;
          assert whole[i] == y;
        }
      }
      ReplayInvariant(l, isOpen, readyState, front, whole);
      var mid := Replay(l, isOpen, readyState, front);
      if x.CandleSub? {
        if TradesEntry(x.symbol, false) in Restored(front) {
          RestoredPlain(front, x.symbol);
          assert false;
        }
        ReplayCandleEntries(mid, isOpen, readyState, front, x);
      } else {
        if x.TradesSub? && !x.forCandle && TradesEntry(x.symbol, true) in Restored(front) {
          RestoredFeed(front, x.symbol);
          assert false;
        }
        ReplayFeedEntries(mid, isOpen, readyState, front, x);
      }
    }
  }

  /** Replay on reconnect of the full client: a `Replayable` list is rebuilt
      with the same entries (up to the new emulator handles). */
  lemma ReplayRestoresEntries(l: Ledger, isOpen: bool, readyState: nat, prev: seq<Subscription>)
    requires l.subs == [] && Replayable(prev)
    ensures Entries(Replay(l, isOpen, readyState, prev).subs) == Entries(prev)
  {
    assert prev == prev[..|prev|];
    ReplayInvariant(l, isOpen, readyState, prev, prev);
    forall e | e in Entries(prev) ensures e in Restored(prev) {
      var x :| x in prev && Erase(x) == e;
      if x.TradesSub? && x.forCandle {
        var c :| c in prev && c.CandleSub? && c.symbol == x.symbol;
        assert TradesEntry(c.symbol, true) in Restored(prev);
      }
    }
    forall e | e in Restored(prev) ensures e in Entries(prev) {
      if e !in (set x | x in prev && !(x.TradesSub? && x.forCandle) :: Erase(x)) {
        var c :| c in prev && c.CandleSub? && e == TradesEntry(c.symbol, true);
        assert Erase(TradesSub(c.symbol, true)) == e;
      }
    }
  }

  /** The replay as written rebuilds a `Replayable` list with the same
      entries once every candle's emulator has finished launching. */
  lemma ReplayAsWrittenRestoresEntries(l: Ledger, isOpen: bool, readyState: nat, prev: seq<Subscription>)
    requires l.subs == [] && Replayable(prev)
    requires forall x :: x in prev && x.CandleSub? ==> x.emulator in l.launched
    ensures var (r, exit) := ReplayAsWritten(l, isOpen, readyState, prev);
            exit == Returned && Entries(r.subs) == Entries(prev)
  {
    ReplayAsWrittenStopsAtPending(l, isOpen, readyState, prev);
    ReplayRestoresEntries(l, isOpen, readyState, prev);
  }

  /** As written, a client holding a candle whose emulator is still
      launching (its seed fetch not yet returned), replayed on an open socket,
      loses its entries: the list is emptied, the `forCandle` feed is skipped,
      and the candle's reset throws. */
  lemma ReplayLosesPendingCandle(l: Ledger, isOpen: bool, readyState: nat, sym: string, iv: string, em: nat)
    requires l.subs == [] && em !in l.launched && '-' !in sym
    ensures var prev := [TradesSub(sym, true), CandleSub(sym, iv, em)];
            && ReplayAsWritten(l, isOpen, readyState, prev) == (l, TypeErrorThrown)
            && Entries(Replay(l, isOpen, readyState, prev).subs) == Entries(prev)
  {
    var prev := [TradesSub(sym, true), CandleSub(sym, iv, em)];
    ReplayAsWrittenStopsAtPending(l, isOpen, readyState, prev);
    assert FirstPending(prev, l.launched) == 1 by {
      assert FirstPending(prev[1..], l.launched) == 0;
    }
    assert prev[..1][..0] == [];
    assert Replay(l, isOpen, readyState, prev[..1]) == l;
    assert prev[1] in prev && prev[0] in prev;
    ReplayRestoresEntries(l, isOpen, readyState, prev);
  }

  /** A candle whose `forCandle` trades subscription is refused (or times
      out) and is then retried ends up after its candle as a plain trades
      entry. */
  lemma RetriedCandleFeedList(l: Ledger, isOpen: bool, readyState: nat, sym: string, iv: string, em: nat)
    requires l.subs == [TradesSub(sym, true), CandleSub(sym, iv, em)]
    ensures var failed := Acknowledge(l, SubscribeAck(TradesReq(sym, true)), false);
            && ResubscribeTimer(TradesReq(sym, true)) in failed.timers
            && Resubscribe(failed, isOpen, readyState, TradesReq(sym, true)).subs
               == [CandleSub(sym, iv, em), TradesSub(sym, false)]
  {
    assert Matches(l.subs[0], TradesKey(sym));
    var failed := Acknowledge(l, SubscribeAck(TradesReq(sym, true)), false);
    assert failed.subs == [CandleSub(sym, iv, em)];
    assert !Matches(failed.subs[0], TradesKey(sym));
  }

  /** Replaying that list rebuilds the candle with a `forCandle` trades
      entry ahead of it: the plain trades entry comes back flagged. */
  lemma ReplayFlipsRetriedFeed(l: Ledger, isOpen: bool, readyState: nat, sym: string, iv: string, em: nat)
    requires l.subs == [] && '-' !in sym
    ensures var prev := [CandleSub(sym, iv, em), TradesSub(sym, false)];
            && !Replayable(prev)
            && Replay(l, isOpen, readyState, prev).subs == [TradesSub(sym, true), CandleSub(sym, iv, l.nextEmulator)]
  {
    var prev := [CandleSub(sym, iv, em), TradesSub(sym, false)];
    assert prev[..1][..0] == [];
    var reset := l.(effects := l.effects + [EmulatorReset(em)]);
    SubscribeCandleOnEmpty(reset, isOpen, readyState, sym, iv);
    var mid := Replay(l, isOpen, readyState, prev[..1]);
    assert Replay(l, isOpen, readyState, prev[..1][..0]) == l;
    assert prev[..1][|prev[..1]| - 1] == prev[0];
    assert mid == ReplayStep(l, isOpen, readyState, prev[0]);
    assert mid.subs == [TradesSub(sym, true), CandleSub(sym, iv, l.nextEmulator)];
    assert Matches(mid.subs[0], TradesKey(sym));
    assert prev[..|prev| - 1] == prev[..1];
    assert prev[0] in prev && prev[1] in prev;
  }
}
