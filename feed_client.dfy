/** The full client of the compiled build (`dist/client.js`): ticker, trades
    and candle subscriptions over one socket. The socket, its send queue and
    its timers are not run: their events (open, close, an inbound frame, the
    queue running a job, a timer going off) are methods the environment calls,
    and every other effect goes to the `effects` log. The subscription logic
    itself is specified by the ledger functions of `Subscriptions`. */
module FeedClient {
  import opened Models
  import opened Correlation
  import opened Subscriptions
  import DualEventHandler

  /** `restartPreviousSubscriptions` on a ledger: nothing when the socket is
      not open; when it is not ready yet, publish `socket-not-ready` and try
      again in 5 s; otherwise empty the list and replay the old one as written,
      which throws at the first candle whose emulator is still launching. */
  function Restart(l: Ledger, socketOpen: bool, readyState: nat): (r: (Ledger, Exit))
    ensures !socketOpen ==> r == (l, Returned)
    ensures socketOpen && readyState == 0 ==>
              r.1 == Returned && r.0.subs == l.subs && r.0.jobs == l.jobs && r.0.timers == l.timers + [RestartTimer]
  {
    if !socketOpen then (l, Returned)
    else if readyState == 0 then
      (l.(effects := l.effects + [Published(SocketNotReadyTopic)], timers := l.timers + [RestartTimer]), Returned)
    else ReplayAsWritten(l.(subs := []), true, readyState, l.subs)
  }

  /** A restart leaves the list alone unless the socket is open and ready.
      Then it throws exactly when some candle's emulator is still launching,
      and otherwise rebuilds the same entries for a `Replayable` list (one a
      retried candle feed has not turned plain; see `ReplayFlipsRetriedFeed`). */
  lemma RestartRestoresEntries(l: Ledger, socketOpen: bool, readyState: nat)
    ensures var (r, exit) := Restart(l, socketOpen, readyState);
            && (!(socketOpen && readyState != 0) ==> r.subs == l.subs && r.jobs == l.jobs && exit == Returned)
            && (socketOpen && readyState == 0 ==> r.timers == l.timers + [RestartTimer])
            && (socketOpen && readyState != 0 ==>
                  (exit == TypeErrorThrown <==> exists x :: x in l.subs && x.CandleSub? && x.emulator !in l.launched))
            && (socketOpen && readyState != 0 && Replayable(l.subs)
                && (forall x :: x in l.subs && x.CandleSub? ==> x.emulator in l.launched) ==>
                  Entries(r.subs) == Entries(l.subs))
  {
    if socketOpen && readyState != 0 {
      var start := l.(subs := []);
      ReplayAsWrittenStopsAtPending(start, true, readyState, l.subs);
      var i := FirstPending(l.subs, l.launched);
      if i < |l.subs| {
        assert l.subs[i] in l.subs;
      }
      if exists x :: x in l.subs && x.CandleSub? && x.emulator !in l.launched {
        var x :| x in l.subs && x.CandleSub? && x.emulator !in l.launched;
        var k :| 0 <= k < |l.subs| && l.subs[k] == x;
        assert i <= k;
      }
      if Replayable(l.subs) && forall x :: x in l.subs && x.CandleSub? ==> x.emulator in l.launched {
        ReplayAsWrittenRestoresEntries(start, true, readyState, l.subs);
      }
    }
  }

  /** As written, a client that subscribes a candle while its socket is
      connecting and opens before the emulator's seed fetch returns ends the
      restart with an empty list and a TypeError (the rejection of `connect`). */
  lemma RestartLosesFreshCandle(l: Ledger, readyState: nat, sym: string, iv: string)
    requires l.subs == [] && LaunchesKnown(l) && '-' !in sym && readyState != 0
    ensures var s := SubscribeCandle(l, false, 0, sym, iv, TradesReq(sym, true));
            var (r, exit) := Restart(s, true, readyState);
            && s.subs == [TradesSub(sym, true), CandleSub(sym, iv, l.nextEmulator)]
            && r.subs == [] && exit == TypeErrorThrown
  {
    var s := SubscribeCandle(l, false, 0, sym, iv, TradesReq(sym, true));
    SubscribeCandleOnEmpty(l, false, 0, sym, iv);
    assert l.nextEmulator !in s.launched;
    ReplayLosesPendingCandle(s.(subs := []), true, readyState, sym, iv, l.nextEmulator);
  }

  /** Every candle entry was created by a `subscribeCandle` that passed the
      interval check. */
  ghost predicate IntervalsIn(subs: seq<Subscription>, intervals: set<string>)
  {
    forall x :: x in subs && x.CandleSub? ==> x.interval in intervals
  }

  class Client {
    /** `candleIntervalList`. */
    const candleIntervals: set<string>
    const eventHandler: DualEventHandler.Handler<Continuation>

    var subscriptions: seq<Subscription>
    /** The send queue (`queueProcessor`), oldest first. */
    var jobs: seq<Job>
    /** Armed one-shot timers. */
    var timers: seq<Timer>
    var effects: seq<Effect>
    /** The handle the next candle emulator gets. */
    var nextEmulator: nat
    /** The handles of the emulators whose `launch()` has finished. */
    var launchedEmulators: set<nat>
    /** Whether `ws` is set, and its `readyState` (0 CONNECTING, 1 OPEN,
        2 CLOSING, 3 CLOSED). */
    var wsPresent: bool
    var readyState: nat
    var socketOpen: bool
    var socketConnecting: bool
    var askingClose: bool
    var lastPongReceived: Option<int>

    ghost predicate Valid()
      reads this`socketOpen, this`wsPresent, this`subscriptions, this`nextEmulator, this`launchedEmulators
    {
      && (socketOpen ==> wsPresent)
      && IntervalsIn(subscriptions, candleIntervals)
      && (forall id :: id in launchedEmulators ==> id < nextEmulator)
    }

    function State(): Ledger
      reads this`subscriptions, this`jobs, this`timers, this`effects, this`nextEmulator, this`launchedEmulators
    {
      Ledger(subscriptions, jobs, timers, effects, nextEmulator, launchedEmulators)
    }

    constructor (candleIntervals: set<string>)
      ensures Valid() && fresh(eventHandler)
      ensures this.candleIntervals == candleIntervals
      ensures State() == Ledger([], [], [], [], 0, {})
      ensures !wsPresent && !socketOpen && !socketConnecting && !askingClose && lastPongReceived.None?
      ensures eventHandler.waits.pending == map[] && eventHandler.lastTickers == map[]
    {
      this.candleIntervals := candleIntervals;
      eventHandler := new DualEventHandler.Handler();
      subscriptions := [];
      jobs := [];
      timers := [];
      effects := [];
      nextEmulator := 0;
      launchedEmulators := {};
      wsPresent := false;
      readyState := 3;
      socketOpen := false;
      socketConnecting := false;
      askingClose := false;
      lastPongReceived := None;
    }

    /** `isSocketOpen`: a socket exists and has opened. */
    function IsSocketOpen(): bool
      reads this`wsPresent, this`socketOpen
    {
      wsPresent && socketOpen
    }

    function IsSocketConnecting(): bool
      reads this`socketConnecting
    {
      socketConnecting
    }

    function GetSubscriptionNumber(): nat
      reads this`subscriptions
    {
      |subscriptions|
    }

    /** `receivedPongRecently`: false before a (non-zero) pong time was
        recorded, true while connecting, otherwise whether the last pong is
        less than two ping intervals old. */
    function ReceivedPongRecently(now: int): (r: bool)
      reads this`lastPongReceived, this`socketConnecting
      ensures lastPongReceived.None? || lastPongReceived == Some(0) ==> !r
      ensures lastPongReceived.Some? && lastPongReceived.value != 0 ==>
                (r <==> socketConnecting || now - lastPongReceived.value < DisconnectedTriggerMs)
    {
      PongRecent(lastPongReceived, socketConnecting, now)
    }

    // -------------------------------------------------------------------
    // The list helpers

    /** `add*Subscription`. */
    method AddSubscription(s: Subscription)
      requires Valid() && (s.CandleSub? ==> s.interval in candleIntervals)
      modifies this`subscriptions, this`effects
      ensures Valid()
      ensures State() == Add(old(State()), s)
    {
      subscriptions := subscriptions + [s];
      effects := effects + [SubscriptionsChanged];
    }

    /** `remove*Subscription`. */
    method RemoveSubscription(k: Key)
      requires Valid()
      modifies this`subscriptions, this`effects
      ensures Valid()
      ensures State() == Remove(old(State()), k)
    {
      if Has(subscriptions, k) {
        var before := subscriptions;
        subscriptions := RemoveFirst(subscriptions, k);
        forall x | x in subscriptions ensures x in before {
          RemoveFirstSubset(before, k, x);
        }
        effects := effects + [SubscriptionsChanged];
      }
    }

    /** `removeCandleSubscription`: the candle's index among the candle
        entries is spliced out of the whole list. */
    method RemoveCandleSubscription(symbol: string, interval: string)
      requires Valid()
      modifies this`subscriptions, this`effects
      ensures Valid()
      ensures State() == RemoveCandle(old(State()), symbol, interval)
    {
      if Has(subscriptions, CandleKey(symbol, interval)) {
        var before := subscriptions;
        CandlesOnlyHas(subscriptions, CandleKey(symbol, interval));
        var i := Find(CandlesOnly(subscriptions), CandleKey(symbol, interval));
        subscriptions := subscriptions[..i] + subscriptions[i + 1..];
        forall x | x in subscriptions ensures x in before {
          Splice(before, i);
          var j :| 0 <= j < |subscriptions| && subscriptions[j] == x;
          if j < i { assert x == before[j]; } else { assert x == before[j + 1]; }
        }
        effects := effects + [SubscriptionsChanged];
      }
    }

    /** The `sub()` closure. */
    method Sub(req: Request)
      modifies this`jobs, this`timers, this`effects
      ensures State() == Attempt(old(State()), IsSocketOpen(), readyState, req)
    {
      if !IsSocketOpen() {
        timers := timers + [RetryTimer(req, RetrySubscriptionMs)];
      } else if readyState == 0 {
        effects := effects + [Published(SocketNotReadyTopic)];
        timers := timers + [RetryTimer(req, RetryTimeoutMs)];
      } else {
        jobs := jobs + [SubscribeJob(req)];
      }
    }

    /** The body shared by `subscribeTicker` and `subscribeTrades`. */
    method SubscribeFeed(req: Request)
      requires Valid()
      modifies this`subscriptions, this`jobs, this`timers, this`effects
      ensures Valid()
      ensures State() == Subscribe(old(State()), IsSocketOpen(), readyState, req)
    {
      if Has(subscriptions, KeyOf(req)) {
        return;
      }
      timers := CancelRetry(timers, RetryKey(req));
      AddSubscription(EntryOf(req));
      Sub(req);
    }

    /** The body shared by `unsubscribeTicker` and `unsubscribeTrades`: throws
        unless the socket is open, then captures, removes and queues. */
    method UnsubscribeFeed(k: Key) returns (exit: Exit)
      requires Valid() && !k.CandleKey?
      modifies this`subscriptions, this`jobs, this`effects
      ensures Valid()
      ensures exit == (if IsSocketOpen() then Returned else NotConnectedError)
      ensures State() == (if IsSocketOpen() then Unsubscribe(old(State()), k) else old(State()))
    {
      if !IsSocketOpen() {
        return NotConnectedError;
      }
      exit := Returned;
      if !Has(subscriptions, k) {
        return;
      }
      var req := RequestOf(subscriptions[Find(subscriptions, k)]);
      RemoveSubscription(k);
      jobs := jobs + [UnsubscribeJob(req)];
    }

    // -------------------------------------------------------------------
    // The public subscription calls

    method SubscribeTicker(symbol: string)
      requires Valid()
      modifies this`subscriptions, this`jobs, this`timers, this`effects
      ensures Valid()
      ensures State() == Subscribe(old(State()), IsSocketOpen(), readyState, TickerReq(symbol))
    {
      SubscribeFeed(TickerReq(symbol));
    }

    method UnsubscribeTicker(symbol: string) returns (exit: Exit)
      requires Valid()
      modifies this`subscriptions, this`jobs, this`effects
      ensures Valid()
      ensures exit == (if IsSocketOpen() then Returned else NotConnectedError)
      ensures State() == (if IsSocketOpen() then Unsubscribe(old(State()), TickerKey(symbol)) else old(State()))
    {
      exit := UnsubscribeFeed(TickerKey(symbol));
    }

    method SubscribeTrades(symbol: string, forCandle: bool)
      requires Valid()
      modifies this`subscriptions, this`jobs, this`timers, this`effects
      ensures Valid()
      ensures State() == Subscribe(old(State()), IsSocketOpen(), readyState, TradesReq(symbol, forCandle))
    {
      SubscribeFeed(TradesReq(symbol, forCandle));
    }

    method UnsubscribeTrades(symbol: string) returns (exit: Exit)
      requires Valid()
      modifies this`subscriptions, this`jobs, this`effects
      ensures Valid()
      ensures exit == (if IsSocketOpen() then Returned else NotConnectedError)
      ensures State() == (if IsSocketOpen() then Unsubscribe(old(State()), TradesKey(symbol)) else old(State()))
    {
      exit := UnsubscribeFeed(TradesKey(symbol));
    }

    /** `subscribeCandle`: throws for an interval outside the list; otherwise
        launches an emulator, subscribes its trades feed and adds the candle. */
    method SubscribeCandle(symbol: string, interval: string) returns (exit: Exit)
      requires Valid()
      modifies this`subscriptions, this`jobs, this`timers, this`effects, this`nextEmulator
      ensures Valid()
      ensures exit == (if interval in candleIntervals then Returned else WrongIntervalError)
      ensures State() == if interval in candleIntervals
                         then Subscriptions.SubscribeCandle(old(State()), IsSocketOpen(), readyState, symbol, interval, TradesReq(symbol, true))
                         else old(State())
    {
      if interval !in candleIntervals {
        return WrongIntervalError;
      }
      exit := Returned;
      if Has(subscriptions, CandleKey(symbol, interval)) {
        return;
      }
      var id := StartLaunch(FormatSymbol(symbol), interval);
      SubscribeFeed(TradesReq(symbol, true));
      AddSubscription(CandleSub(FormatSymbol(symbol), interval, id));
    }

    /** `candleEmulator.launch()`, not awaited: the emulator gets the next
        handle and its launch is logged. */
    method StartLaunch(symbol: string, interval: string) returns (id: nat)
      requires Valid()
      modifies this`effects, this`nextEmulator
      ensures Valid() && id == old(nextEmulator)
      ensures State() == old(State()).(effects := old(effects) + [EmulatorLaunched(id, symbol, interval)], nextEmulator := id + 1)
    {
      id := nextEmulator;
      effects := effects + [EmulatorLaunched(id, symbol, interval)];
      nextEmulator := id + 1;
    }

    /** `unsubscribeCandle`, with the candle removed as written. */
    method UnsubscribeCandle(symbol: string, interval: string) returns (exit: Exit)
      requires Valid()
      modifies this`subscriptions, this`jobs, this`effects
      ensures Valid()
      ensures (State(), exit) == Subscriptions.UnsubscribeCandle(old(State()), IsSocketOpen(), symbol, interval)
    {
      var fs := FormatSymbol(symbol);
      if !Has(subscriptions, CandleKey(fs, interval)) {
        return Returned;
      }
      if !Has(subscriptions, CandleKey(symbol, interval)) {
        return TypeErrorThrown;
      }
      var emulator := subscriptions[Find(subscriptions, CandleKey(symbol, interval))].emulator;
      if emulator !in launchedEmulators {
        return TypeErrorThrown;
      }
      effects := effects + [EmulatorReset(emulator)];
      RemoveCandleSubscription(fs, interval);
      if CandleCount(subscriptions, fs) != 1 {
        return Returned;
      }
      exit := UnsubscribeTicker(fs);
    }

    // -------------------------------------------------------------------
    // Closing

    /** `ws.close()`: the socket starts closing; its close event follows. */
    method CloseSocket()
      modifies this`effects, this`readyState
      ensures effects == old(effects) + [CloseRequested]
      ensures readyState == (if old(readyState) < 2 then 2 else old(readyState))
    {
      effects := effects + [CloseRequested];
      if readyState < 2 {
        readyState := 2;
      }
    }

    /** `closeConnection`: refuses while any subscription is left; otherwise
        marks the close as asked for (so no reconnect follows) and closes the
        socket, which throws when there is none. */
    method CloseConnection() returns (exit: Exit)
      requires Valid()
      modifies this`effects, this`readyState, this`askingClose
      ensures Valid()
      ensures |subscriptions| > 0 ==>
                exit == ActiveSubscriptionsError(|subscriptions|) && askingClose == old(askingClose)
                && effects == old(effects) && readyState == old(readyState)
      ensures |subscriptions| == 0 ==> askingClose
      ensures |subscriptions| == 0 && !wsPresent ==> exit == TypeErrorThrown && effects == old(effects)
      ensures |subscriptions| == 0 && wsPresent ==>
                exit == Returned && effects == old(effects) + [CloseRequested] && readyState >= 2
    {
      if |subscriptions| > 0 {
        return ActiveSubscriptionsError(|subscriptions|);
      }
      askingClose := true;
      if !wsPresent {
        return TypeErrorThrown;
      }
      CloseSocket();
      exit := Returned;
    }

    /** `forceCloseConnection`: closes an open socket whatever it holds;
        `askingClose` is left as it is, so a reconnect follows. */
    method ForceCloseConnection()
      requires Valid()
      modifies this`effects, this`readyState
      ensures Valid()
      ensures !IsSocketOpen() ==> effects == old(effects) && readyState == old(readyState)
      ensures IsSocketOpen() ==> effects == old(effects) + [CloseRequested] && readyState >= 2
    {
      if IsSocketOpen() {
        CloseSocket();
      }
    }

    // -------------------------------------------------------------------
    // Replay, connection and socket events

    /** The environment: the launch of emulator `id` finishes (its candle
        fetch has returned and it listens), so its `reset()` now succeeds. */
    method LaunchFinished(id: nat)
      requires Valid() && id < nextEmulator
      modifies this`launchedEmulators
      ensures Valid()
      ensures State() == old(State()).(launched := old(launchedEmulators) + {id})
    {
      launchedEmulators := launchedEmulators + {id};
    }

    method RestartPreviousSubscriptions() returns (exit: Exit)
      requires Valid()
      modifies this`subscriptions, this`jobs, this`timers, this`effects, this`nextEmulator
      ensures Valid()
      ensures (State(), exit) == Restart(old(State()), socketOpen, readyState)
    {
      exit := Returned;
      if !socketOpen {
        return;
      }
      if readyState == 0 {
        effects := effects + [Published(SocketNotReadyTopic)];
        timers := timers + [RestartTimer];
        return;
      }
      var previous := subscriptions;
      subscriptions := [];
      ghost var start := State();
      var i := 0;
      while i < |previous| && exit == Returned
        invariant 0 <= i <= |previous|
        invariant Valid() && IsSocketOpen()
        invariant IntervalsIn(previous, candleIntervals)
        invariant (State(), exit) == ReplayAsWritten(start, true, readyState, previous[..i])
      {
        ReplayPrefixStep(start, true, readyState, previous, i);
        exit := ReplayEntry(previous[i]);
        i := i + 1;
      }
      if i < |previous| {
        ReplayAsWrittenHalted(start, true, readyState, previous, i);
      } else {
        assert previous[..i] == previous;
      }
    }

    /** One entry of the old list, subscribed again on an open socket; a
        candle resets its emulator first, which throws while the emulator is
        still launching. */
    method ReplayEntry(x: Subscription) returns (exit: Exit)
      requires Valid() && IsSocketOpen()
      requires x.CandleSub? ==> x.interval in candleIntervals
      modifies this`subscriptions, this`jobs, this`timers, this`effects, this`nextEmulator
      ensures Valid() && IsSocketOpen()
      ensures (State(), exit) == ReplayStepAsWritten(old(State()), true, readyState, x)
    {
      exit := Returned;
      match x
      case TickerSub(sym) =>
        SubscribeTicker(sym);
      case TradesSub(sym, fc) =>
        if !fc {
          SubscribeTrades(sym, false);
        }
      case CandleSub(sym, iv, em) =>
        if em !in launchedEmulators {
          return TypeErrorThrown;
        }
        effects := effects + [EmulatorReset(em)];
        var _ := SubscribeCandle(sym, iv);
    }

    /** The part of `connect` that runs once the socket is open: record the
        pong time and replay a non-empty list. */
    method Resumed(now: int) returns (exit: Exit)
      requires Valid()
      modifies this`subscriptions, this`jobs, this`timers, this`effects, this`nextEmulator, this`lastPongReceived
      ensures Valid() && lastPongReceived == Some(now)
      ensures now != 0 ==>
                forall later :: ReceivedPongRecently(later) <==> socketConnecting || later - now < DisconnectedTriggerMs
      ensures (State(), exit) == if |old(subscriptions)| > 0 then Restart(old(State()), socketOpen, readyState)
                                 else (old(State()), Returned)
    {
      lastPongReceived := Some(now);
      exit := Returned;
      if |subscriptions| > 0 {
        exit := RestartPreviousSubscriptions();
      }
    }

    /** `connect`: reset the flags and the ticker cache; with an open socket
        continue at once, otherwise create a socket (CONNECTING) and wait for
        its open event. */
    method Connect(now: int) returns (exit: Exit)
      requires Valid()
      modifies this, eventHandler`lastTickers
      ensures Valid()
      ensures socketConnecting && !askingClose && lastPongReceived == Some(now)
      ensures now != 0 ==> forall later :: ReceivedPongRecently(later)
      ensures eventHandler.lastTickers == map[]
      ensures socketOpen == old(socketOpen)
      ensures !old(socketOpen) ==> wsPresent && readyState == 0 && State() == old(State()) && exit == Returned
      ensures old(socketOpen) ==> wsPresent == old(wsPresent) && readyState == old(readyState)
      ensures old(socketOpen) ==>
                (State(), exit) == if |old(subscriptions)| > 0 then Restart(old(State()), true, readyState)
                                   else (old(State()), Returned)
    {
      lastPongReceived := Some(now);
      socketConnecting := true;
      askingClose := false;
      eventHandler.ClearCache();
      if !socketOpen {
        wsPresent := true;
        readyState := 0;
        return Returned;
      }
      exit := Resumed(now);
    }

    /** The socket's open event, which completes `connect`. */
    method OnOpen(now: int) returns (exit: Exit)
      requires Valid() && wsPresent
      modifies this
      ensures Valid()
      ensures readyState == 1 && socketOpen && wsPresent && !socketConnecting && lastPongReceived == Some(now)
      ensures now != 0 ==> forall later :: ReceivedPongRecently(later) <==> later - now < DisconnectedTriggerMs
      ensures askingClose == old(askingClose)
      ensures (State(), exit) == if |old(subscriptions)| > 0 then Restart(old(State()), true, 1)
                                 else (old(State()), Returned)
    {
      readyState := 1;
      socketOpen := true;
      socketConnecting := false;
      exit := Resumed(now);
    }

    /** The socket's close event: the queue is dropped, the socket forgotten,
        and a reconnect scheduled unless the close was asked for. */
    method OnClose()
      requires Valid()
      modifies this`jobs, this`timers, this`socketOpen, this`wsPresent
      ensures Valid()
      ensures !socketOpen && !wsPresent && jobs == []
      ensures timers == old(timers) + (if askingClose then [] else [ReconnectTimer])
    {
      jobs := [];
      socketOpen := false;
      wsPresent := false;
      if !askingClose {
        timers := timers + [ReconnectTimer];
      }
    }

    /** `sendPing`: throws unless open; waits for `pong` and sends a ping. */
    method SendPing() returns (exit: Exit)
      requires Valid()
      modifies this`timers, this`effects, eventHandler`waits
      ensures Valid()
      ensures !IsSocketOpen() ==> exit == NotConnectedError && State() == old(State())
                                  && eventHandler.waits == old(eventHandler.waits)
      ensures IsSocketOpen() ==>
                var reg := Registration(old(eventHandler.waits.nextTicket), PongAck);
                && exit == Returned
                && eventHandler.waits == Register(old(eventHandler.waits), "pong", PongAck).0
                && State() == old(State()).(timers := old(timers) + [WaitTimer("pong", reg)], effects := old(effects) + [SentPing])
    {
      if !IsSocketOpen() {
        return NotConnectedError;
      }
      var reg := eventHandler.WaitForEvent("pong", PongAck);
      timers := timers + [WaitTimer("pong", reg)];
      effects := effects + [SentPing];
      exit := Returned;
    }

    /** A wait callback firing with `result`. */
    method Resume(c: Continuation, result: bool, now: int)
      requires Valid()
      modifies this`subscriptions, this`timers, this`effects, this`lastPongReceived, eventHandler`lastTickers
      ensures Valid()
      ensures State() == Acknowledge(old(State()), c, result)
      ensures lastPongReceived == if c.PongAck? && result then Some(now) else old(lastPongReceived)
      ensures c.PongAck? && result && now != 0 ==>
                forall later :: ReceivedPongRecently(later) <==> socketConnecting || later - now < DisconnectedTriggerMs
      ensures eventHandler.lastTickers ==
                if result && c.UnsubscribeAck? && c.req.TickerReq?
                then old(eventHandler.lastTickers) - {FormatSymbol(c.req.symbol)}
                else old(eventHandler.lastTickers)
    {
      match c
      case SubscribeAck(req) =>
        if !result {
          RemoveSubscription(KeyOf(req));
          timers := timers + [ResubscribeTimer(req)];
        }
      case UnsubscribeAck(req) =>
        if result {
          if req.TickerReq? {
            eventHandler.DeleteTickerCache(FormatSymbol(req.symbol));
          }
        } else {
          AddSubscription(EntryOf(req));
        }
      case PongAck =>
        if result {
          lastPongReceived := Some(now);
        }
    }

    /** An inbound frame: the handler dispatches it, and a resolved wait runs
        its callback with true. */
    method OnMessage(m: MessageData, now: int) returns (out: DualEventHandler.Outcome<Continuation>)
      requires Valid()
      modifies this`subscriptions, this`timers, this`effects, this`lastPongReceived, eventHandler
      ensures Valid()
      ensures out.Resolved? ==> State() == Acknowledge(old(State()), out.firing.registration.callback, true)
      ensures !out.Resolved? ==> State() == old(State()) && lastPongReceived == old(lastPongReceived)
      ensures out.Resolved? <==> EventKey(m) in old(eventHandler.waits.pending)
    {
      out := eventHandler.ProcessMessage(m);
      if out.Resolved? {
        Resume(out.firing.registration.callback, true, now);
      }
    }

    /** The send queue runs its oldest job: register the wait for the reply
        (and its 1.5 s timer), then send; a send error runs the rollback. */
    method RunNextJob(sendFails: bool)
      requires Valid()
      modifies this`subscriptions, this`jobs, this`timers, this`effects, eventHandler`waits
      ensures Valid()
      ensures old(jobs) == [] ==> State() == old(State()) && eventHandler.waits == old(eventHandler.waits)
      ensures old(jobs) != [] ==>
                var job := old(jobs)[0];
                var reg := Registration(old(eventHandler.waits.nextTicket), JobContinuation(job));
                && eventHandler.waits == Register(old(eventHandler.waits), JobKey(job), JobContinuation(job)).0
                && State() == Send(old(State()).(jobs := old(jobs)[1..], timers := old(timers) + [WaitTimer(JobKey(job), reg)]),
                                   wsPresent, sendFails, job)
    {
      if jobs == [] {
        return;
      }
      var job := jobs[0];
      jobs := jobs[1..];
      var reg := eventHandler.WaitForEvent(JobKey(job), JobContinuation(job));
      timers := timers + [WaitTimer(JobKey(job), reg)];
      if !wsPresent {
        return;
      }
      effects := effects + [Sent(Op(job), Channel(job.req), FormatSymbol(job.req.symbol))];
      if sendFails {
        effects := effects + [Published(ErrorTopic)];
        match job
        case SubscribeJob(req) =>
          timers := timers + [ResubscribeTimer(req)];
          RemoveSubscription(KeyOf(req));
        case UnsubscribeJob(req) =>
          AddSubscription(EntryOf(req));
      }
    }

    // -------------------------------------------------------------------
    // Timers going off (each is removed from `timers` as it fires)

    /** A `sub()` retry: the closure runs again (the entry is not re-added). */
    method RetryFired(i: nat)
      requires Valid() && i < |timers| && timers[i].RetryTimer?
      modifies this`jobs, this`timers, this`effects
      ensures Valid()
      ensures State() == Attempt(old(State()).(timers := old(timers[..i] + timers[i + 1..])), IsSocketOpen(), readyState, old(timers[i].req))
    {
      var req := timers[i].req;
      timers := timers[..i] + timers[i + 1..];
      Sub(req);
    }

    /** The re-subscription after a refused or failed subscribe. */
    method ResubscribeFired(i: nat)
      requires Valid() && i < |timers| && timers[i].ResubscribeTimer?
      modifies this`subscriptions, this`jobs, this`timers, this`effects
      ensures Valid()
      ensures State() == Resubscribe(old(State()).(timers := old(timers[..i] + timers[i + 1..])), IsSocketOpen(), readyState, old(timers[i].req))
    {
      var req := timers[i].req;
      timers := timers[..i] + timers[i + 1..];
      effects := effects + [Published(RetrySubscriptionTopic)];
      SubscribeFeed(RetryRequest(req));
    }

    /** The deferred replay. */
    method RestartFired(i: nat) returns (exit: Exit)
      requires Valid() && i < |timers| && timers[i].RestartTimer?
      modifies this`subscriptions, this`jobs, this`timers, this`effects, this`nextEmulator
      ensures Valid()
      ensures (State(), exit) == Restart(old(State()).(timers := old(timers[..i] + timers[i + 1..])), socketOpen, readyState)
    {
      timers := timers[..i] + timers[i + 1..];
      exit := RestartPreviousSubscriptions();
    }

    /** `reconnect` after its 5 s delay: publish `reconnect`, then `connect`. */
    method ReconnectFired(i: nat, now: int) returns (exit: Exit)
      requires Valid() && i < |timers| && timers[i].ReconnectTimer?
      modifies this, eventHandler`lastTickers
      ensures Valid()
      ensures socketConnecting && !askingClose && lastPongReceived == Some(now)
      ensures !old(socketOpen) ==> wsPresent && readyState == 0 && !socketOpen && exit == Returned
      ensures !old(socketOpen) ==>
                State() == old(State()).(timers := old(timers[..i] + timers[i + 1..]), effects := old(effects) + [Published(ReconnectTopic)])
      ensures old(socketOpen) ==>
                var announced := old(State()).(timers := old(timers[..i] + timers[i + 1..]), effects := old(effects) + [Published(ReconnectTopic)]);
                (State(), exit) == if |old(subscriptions)| > 0 then Restart(announced, true, readyState) else (announced, Returned)
    {
      timers := timers[..i] + timers[i + 1..];
      effects := effects + [Published(ReconnectTopic)];
      exit := Connect(now);
    }

    /** The 1.5 s timer of a wait: when any wait is pending under its key,
        the handler deletes it and fires the timer's own callback with false,
        even when the pending wait is a newer one (the timer as written). */
    method WaitTimedOut(i: nat, now: int)
      requires Valid() && i < |timers| && timers[i].WaitTimer?
      modifies this`subscriptions, this`timers, this`effects, this`lastPongReceived, eventHandler`waits, eventHandler`lastTickers
      ensures Valid()
      ensures var t := old(timers[i]);
              var rest := old(State()).(timers := old(timers[..i] + timers[i + 1..]));
              && eventHandler.waits == Expire(old(eventHandler.waits), t.key, t.registration).0
              && State() == if t.key in old(eventHandler.waits.pending)
                            then Acknowledge(rest, t.registration.callback, false) else rest
    {
      var t := timers[i];
      timers := timers[..i] + timers[i + 1..];
      var fired := eventHandler.Timeout(t.key, t.registration);
      if fired.Some? {
        Resume(fired.value.registration.callback, false, now);
      }
    }

    // -------------------------------------------------------------------
    // The periodic staleness sweep

    /** `shouldReconnectTickers`: unsubscribe and subscribe again every ticker
        pair that is stale against the ticker cache; the first unsubscribe
        throws when the socket is not open. */
    method ShouldReconnectTickers(now: int) returns (exit: Exit)
      requires Valid()
      modifies this`subscriptions, this`jobs, this`timers, this`effects
      ensures Valid()
      ensures var pairs := StaleFeeds(old(subscriptions), true, Timestamps(eventHandler.lastTickers), now);
              if !IsSocketOpen() && |pairs| > 0 then exit == NotConnectedError && State() == old(State())
              else exit == Returned && State() == RefreshTickers(old(State()), IsSocketOpen(), readyState, pairs)
    {
      var pairs := StaleFeeds(subscriptions, true, Timestamps(eventHandler.GetLastTickers()), now);
      if |pairs| == 0 {
        return Returned;
      }
      if !IsSocketOpen() {
        return NotConnectedError;
      }
      RefreshTickerPairs(pairs);
      exit := Returned;
    }

    /** The sweep's loop: every stale ticker pair in turn, on an open socket. */
    method RefreshTickerPairs(pairs: seq<string>)
      requires Valid() && IsSocketOpen()
      modifies this`subscriptions, this`jobs, this`timers, this`effects
      ensures Valid() && IsSocketOpen()
      ensures State() == RefreshTickers(old(State()), true, readyState, pairs)
    {
      ghost var start := State();
      for i := 0 to |pairs|
        invariant Valid() && IsSocketOpen()
        invariant State() == RefreshTickers(start, true, readyState, pairs[..i])
      {
        RefreshTickerPair(pairs[i]);
        RefreshTickersStep(start, true, readyState, pairs, i);
      }
      assert pairs[..|pairs|] == pairs;
    }

    /** One stale ticker pair, the socket being open. */
    method RefreshTickerPair(p: string)
      requires Valid() && IsSocketOpen()
      modifies this`subscriptions, this`jobs, this`timers, this`effects
      ensures Valid() && IsSocketOpen()
      ensures State() == RefreshTicker(old(State()), true, readyState, p)
    {
      var _ := UnsubscribeTicker(p);
      SubscribeTicker(p);
    }

    /** One stale trades pair, the socket being open. */
    method RefreshTradePair(p: string)
      requires Valid() && IsSocketOpen()
      modifies this`subscriptions, this`jobs, this`timers, this`effects
      ensures Valid() && IsSocketOpen()
      ensures State() == RefreshTrade(old(State()), true, readyState, p)
    {
      if !Has(subscriptions, TradesKey(p)) {
        return;
      }
      var forCandle := subscriptions[Find(subscriptions, TradesKey(p))].forCandle;
      var _ := UnsubscribeTrades(p);
      SubscribeTrades(p, forCandle);
      if forCandle {
        effects := effects + CandleTopics(subscriptions, p);
      }
    }

    /** `shouldReconnectTrades`, with the last trade time of each pair given
        as `lastTrades`. */
    method ShouldReconnectTrades(now: int, lastTrades: map<string, int>) returns (exit: Exit)
      requires Valid()
      modifies this`subscriptions, this`jobs, this`timers, this`effects
      ensures Valid()
      ensures var pairs := StaleFeeds(old(subscriptions), false, lastTrades, now);
              if !IsSocketOpen() && |pairs| > 0 then exit == NotConnectedError && State() == old(State())
              else exit == Returned && State() == RefreshTrades(old(State()), IsSocketOpen(), readyState, pairs)
    {
      var pairs := StaleFeeds(subscriptions, false, lastTrades, now);
      if |pairs| == 0 {
        return Returned;
      }
      if !IsSocketOpen() {
        return NotConnectedError;
      }
      RefreshTradePairs(pairs);
      exit := Returned;
    }

    /** The sweep's loop: every stale trades pair in turn, on an open socket. */
    method RefreshTradePairs(pairs: seq<string>)
      requires Valid() && IsSocketOpen()
      modifies this`subscriptions, this`jobs, this`timers, this`effects
      ensures Valid() && IsSocketOpen()
      ensures State() == RefreshTrades(old(State()), true, readyState, pairs)
    {
      ghost var start := State();
      for i := 0 to |pairs|
        invariant Valid() && IsSocketOpen()
        invariant State() == RefreshTrades(start, true, readyState, pairs[..i])
      {
        RefreshTradePair(pairs[i]);
        RefreshTradesStep(start, true, readyState, pairs, i);
      }
      assert pairs[..|pairs|] == pairs;
    }

    /** `shouldReconnectDeadSockets`: with an open socket, the ticker sweep
        and then the trades sweep over the list the first one left. */
    method ShouldReconnectDeadSockets(now: int, lastTrades: map<string, int>)
      requires Valid()
      modifies this`subscriptions, this`jobs, this`timers, this`effects
      ensures Valid()
      ensures !IsSocketOpen() ==> State() == old(State())
      ensures IsSocketOpen() ==>
                var mid := RefreshTickers(old(State()), true, readyState,
                                          StaleFeeds(old(subscriptions), true, Timestamps(eventHandler.lastTickers), now));
                State() == RefreshTrades(mid, true, readyState, StaleFeeds(mid.subs, false, lastTrades, now))
    {
      if !IsSocketOpen() {
        return;
      }
      // the two sweeps as `shouldReconnectTickers` / `shouldReconnectTrades`
      // run them on an open socket
      var tickerPairs := StaleFeeds(subscriptions, true, Timestamps(eventHandler.GetLastTickers()), now);
      RefreshTickerPairs(tickerPairs);
      var tradePairs := StaleFeeds(subscriptions, false, lastTrades, now);
      RefreshTradePairs(tradePairs);
    }
  }
}
