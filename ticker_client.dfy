/** The ticker-only client of the TypeScript sources (`src/client.ts`): ticker
    subscriptions, and candles fed by the ticker, over one socket. Socket,
    queue and timer events are methods the environment calls, as for
    `FeedClient.Client`; the list logic is the same ledger functions, and the
    replay on reconnect keeps the ticker entries only. */
module TickerClient {
  import opened Models
  import opened Correlation
  import opened Subscriptions
  import EventHandler

  /** `restartPreviousSubscriptions` on a ledger: nothing when the socket is
      not open; when it is not ready yet, publish `socket-not-ready` and try
      again in 5 s; otherwise empty the list and subscribe the old ticker
      entries again. */
  function Restart(l: Ledger, socketOpen: bool, readyState: nat): (r: Ledger)
    ensures !socketOpen ==> r == l
    ensures socketOpen && readyState == 0 ==>
              r.subs == l.subs && r.jobs == l.jobs && r.timers == l.timers + [RestartTimer]
  {
    if !socketOpen then l
    else if readyState == 0 then
      l.(effects := l.effects + [Published(SocketNotReadyTopic)], timers := l.timers + [RestartTimer])
    else ReplayTickers(l.(subs := []), true, readyState, l.subs)
  }

  /** A restart leaves the list alone unless the socket is open and ready, and
      then keeps exactly the ticker entries, in their order, dropping every
      candle (when no ticker symbol was listed twice). */
  lemma RestartKeepsTickersOnly(l: Ledger, socketOpen: bool, readyState: nat)
    ensures var r := Restart(l, socketOpen, readyState);
            && (!(socketOpen && readyState != 0) ==> r.subs == l.subs && r.jobs == l.jobs)
            && (socketOpen && readyState == 0 ==> r.timers == l.timers + [RestartTimer])
            && (socketOpen && readyState != 0 && UniqueTickers(l.subs) ==> r.subs == TickersOnly(l.subs))
  {
    if socketOpen && readyState != 0 && UniqueTickers(l.subs) {
      ReplayTickersRestoresTickers(l.(subs := []), true, readyState, l.subs);
    }
  }

  class Client {
    /** `candleIntervalList`. */
    const candleIntervals: set<string>
    const eventHandler: EventHandler.Handler<Continuation>

    var subscriptions: seq<Subscription>
    /** The send queue (`queueProcessor`), oldest first. */
    var jobs: seq<Job>
    /** Armed one-shot timers. */
    var timers: seq<Timer>
    var effects: seq<Effect>
    /** The handle the next candle emulator gets. */
    var nextEmulator: nat
    /** Whether `ws` is set, and its `readyState` (0 CONNECTING, 1 OPEN,
        2 CLOSING, 3 CLOSED). */
    var wsPresent: bool
    var readyState: nat
    var socketOpen: bool
    var socketConnecting: bool
    var askingClose: bool
    var lastPongReceived: Option<int>

    ghost predicate Valid()
      reads this`socketOpen, this`wsPresent
    {
      socketOpen ==> wsPresent
    }

    /** This build never resets an emulator, so whether a launch has
        finished plays no part and no launch is recorded as finished. */
    function State(): Ledger
      reads this`subscriptions, this`jobs, this`timers, this`effects, this`nextEmulator
    {
      Ledger(subscriptions, jobs, timers, effects, nextEmulator, {})
    }

    constructor (candleIntervals: set<string>)
      ensures Valid() && fresh(eventHandler)
      ensures this.candleIntervals == candleIntervals
      ensures State() == Ledger([], [], [], [], 0, {})
      ensures !wsPresent && !socketOpen && !socketConnecting && !askingClose && lastPongReceived.None?
      ensures eventHandler.waits.pending == map[] && eventHandler.lastTickers == map[]
    {
      this.candleIntervals := candleIntervals;
      eventHandler := new EventHandler.Handler();
      subscriptions := [];
      jobs := [];
      timers := [];
      effects := [];
      nextEmulator := 0;
      wsPresent := false;
      readyState := 3;
      socketOpen := false;
      socketConnecting := false;
      askingClose := false;
      lastPongReceived := None;
    }

    /** `isSocketOpen`: a socket exists and has opened. */
    function IsSocketOpen(): bool
      reads this`wsPresent, this`socketOpen
    {
      wsPresent && socketOpen
    }

    function IsSocketConnecting(): bool
      reads this`socketConnecting
    {
      socketConnecting
    }

    function GetSubscriptionNumber(): nat
      reads this`subscriptions
    {
      |subscriptions|
    }

    /** `receivedPongRecently`: false before a (non-zero) pong time was
        recorded, true while connecting, otherwise whether the last pong is
        less than two ping intervals old. */
    function ReceivedPongRecently(now: int): (r: bool)
      reads this`lastPongReceived, this`socketConnecting
      ensures lastPongReceived.None? || lastPongReceived == Some(0) ==> !r
      ensures lastPongReceived.Some? && lastPongReceived.value != 0 ==>
                (r <==> socketConnecting || now - lastPongReceived.value < DisconnectedTriggerMs)
    {
      PongRecent(lastPongReceived, socketConnecting, now)
    }

    // -------------------------------------------------------------------
    // The list helpers

    /** `add*Subscription`. */
    method AddSubscription(s: Subscription)
      requires Valid()
      modifies this`subscriptions, this`effects
      ensures Valid()
      ensures State() == Add(old(State()), s)
    {
      subscriptions := subscriptions + [s];
      effects := effects + [SubscriptionsChanged];
    }

    /** `remove*Subscription`. */
    method RemoveSubscription(k: Key)
      requires Valid()
      modifies this`subscriptions, this`effects
      ensures Valid()
      ensures State() == Remove(old(State()), k)
    {
      if Has(subscriptions, k) {
        subscriptions := RemoveFirst(subscriptions, k);
        effects := effects + [SubscriptionsChanged];
      }
    }

    /** The `sub()` closure. */
    method Sub(req: Request)
      modifies this`jobs, this`timers, this`effects
      ensures State() == Attempt(old(State()), IsSocketOpen(), readyState, req)
    {
      if !IsSocketOpen() {
        timers := timers + [RetryTimer(req, RetrySubscriptionMs)];
      } else if readyState == 0 {
        effects := effects + [Published(SocketNotReadyTopic)];
        timers := timers + [RetryTimer(req, RetryTimeoutMs)];
      } else {
        jobs := jobs + [SubscribeJob(req)];
      }
    }

    /** `subscribeTicker`, and the re-subscription after a failure. */
    method SubscribeFeed(req: Request)
      requires Valid()
      modifies this`subscriptions, this`jobs, this`timers, this`effects
      ensures Valid()
      ensures State() == Subscribe(old(State()), IsSocketOpen(), readyState, req)
    {
      if Has(subscriptions, KeyOf(req)) {
        return;
      }
      timers := CancelRetry(timers, RetryKey(req));
      AddSubscription(EntryOf(req));
      Sub(req);
    }

    /** `unsubscribeTicker`'s body: throws unless the socket is open, then
        removes the entry and queues the unsubscribe. */
    method UnsubscribeFeed(k: Key) returns (exit: Exit)
      requires Valid() && !k.CandleKey?
      modifies this`subscriptions, this`jobs, this`effects
      ensures Valid()
      ensures exit == (if IsSocketOpen() then Returned else NotConnectedError)
      ensures State() == (if IsSocketOpen() then Unsubscribe(old(State()), k) else old(State()))
    {
      if !IsSocketOpen() {
        return NotConnectedError;
      }
      exit := Returned;
      if !Has(subscriptions, k) {
        return;
      }
      var req := RequestOf(subscriptions[Find(subscriptions, k)]);
      RemoveSubscription(k);
      jobs := jobs + [UnsubscribeJob(req)];
    }

    // -------------------------------------------------------------------
    // The public subscription calls

    method SubscribeTicker(symbol: string)
      requires Valid()
      modifies this`subscriptions, this`jobs, this`timers, this`effects
      ensures Valid()
      ensures State() == Subscribe(old(State()), IsSocketOpen(), readyState, TickerReq(symbol))
    {
      SubscribeFeed(TickerReq(symbol));
    }

    method UnsubscribeTicker(symbol: string) returns (exit: Exit)
      requires Valid()
      modifies this`subscriptions, this`jobs, this`effects
      ensures Valid()
      ensures exit == (if IsSocketOpen() then Returned else NotConnectedError)
      ensures State() == (if IsSocketOpen() then Unsubscribe(old(State()), TickerKey(symbol)) else old(State()))
    {
      exit := UnsubscribeFeed(TickerKey(symbol));
    }

    /** `subscribeCandle`: throws for an interval outside the list; otherwise
        launches an emulator, subscribes the ticker and adds the candle. */
    method SubscribeCandle(symbol: string, interval: string) returns (exit: Exit)
      requires Valid()
      modifies this`subscriptions, this`jobs, this`timers, this`effects, this`nextEmulator
      ensures Valid()
      ensures exit == (if interval in candleIntervals then Returned else WrongIntervalError)
      ensures State() == if interval in candleIntervals
                         then Subscriptions.SubscribeCandle(old(State()), IsSocketOpen(), readyState, symbol, interval, TickerReq(symbol))
                         else old(State())
    {
      if interval !in candleIntervals {
        return WrongIntervalError;
      }
      exit := Returned;
      if Has(subscriptions, CandleKey(symbol, interval)) {
        return;
      }
      var id := nextEmulator;
      effects := effects + [EmulatorLaunched(id, FormatSymbol(symbol), interval)];
      nextEmulator := id + 1;
      assert State() == old(State()).(effects := old(State()).effects + [EmulatorLaunched(id, FormatSymbol(symbol), interval)],
                                      nextEmulator := id + 1);
      SubscribeFeed(TickerReq(symbol));
      AddSubscription(CandleSub(FormatSymbol(symbol), interval, id));
    }

    // -------------------------------------------------------------------
    // Closing

    /** `ws.close()`: the socket starts closing; its close event follows. */
    method CloseSocket()
      modifies this`effects, this`readyState
      ensures effects == old(effects) + [CloseRequested]
      ensures readyState == (if old(readyState) < 2 then 2 else old(readyState))
    {
      effects := effects + [CloseRequested];
      if readyState < 2 {
        readyState := 2;
      }
    }

    /** `closeConnection`: refuses while any subscription is left; otherwise
        marks the close as asked for (so no reconnect follows) and closes the
        socket, which throws when there is none. */
    method CloseConnection() returns (exit: Exit)
      requires Valid()
      modifies this`effects, this`readyState, this`askingClose
      ensures Valid()
      ensures |subscriptions| > 0 ==>
                exit == ActiveSubscriptionsError(|subscriptions|) && askingClose == old(askingClose)
                && effects == old(effects) && readyState == old(readyState)
      ensures |subscriptions| == 0 ==> askingClose
      ensures |subscriptions| == 0 && !wsPresent ==> exit == TypeErrorThrown && effects == old(effects)
      ensures |subscriptions| == 0 && wsPresent ==>
                exit == Returned && effects == old(effects) + [CloseRequested] && readyState >= 2
    {
      if |subscriptions| > 0 {
        return ActiveSubscriptionsError(|subscriptions|);
      }
      askingClose := true;
      if !wsPresent {
        return TypeErrorThrown;
      }
      CloseSocket();
      exit := Returned;
    }

    /** `forceCloseConnection`: closes an open socket whatever it holds;
        `askingClose` is left as it is, so a reconnect follows. */
    method ForceCloseConnection()
      requires Valid()
      modifies this`effects, this`readyState
      ensures Valid()
      ensures !IsSocketOpen() ==> effects == old(effects) && readyState == old(readyState)
      ensures IsSocketOpen() ==> effects == old(effects) + [CloseRequested] && readyState >= 2
    {
      if IsSocketOpen() {
        CloseSocket();
      }
    }

    // -------------------------------------------------------------------
    // Replay, connection and socket events

    method RestartPreviousSubscriptions()
      requires Valid()
      modifies this`subscriptions, this`jobs, this`timers, this`effects
      ensures Valid()
      ensures State() == Restart(old(State()), socketOpen, readyState)
    {
      if !socketOpen {
        return;
      }
      if readyState == 0 {
        effects := effects + [Published(SocketNotReadyTopic)];
        timers := timers + [RestartTimer];
        return;
      }
      var previous := subscriptions;
      subscriptions := [];
      ghost var start := State();
      for i := 0 to |previous|
        invariant Valid() && IsSocketOpen()
        invariant State() == ReplayTickers(start, true, readyState, previous[..i])
      {
        assert previous[..i + 1][..i] == previous[..i];
        if previous[i].TickerSub? {
          SubscribeTicker(previous[i].symbol);
        }
      }
      assert previous[..|previous|] == previous;
    }

    /** The part of `connect` that runs once the socket is open: record the
        pong time and replay a non-empty list. */
    method Resumed(now: int)
      requires Valid()
      modifies this`subscriptions, this`jobs, this`timers, this`effects, this`lastPongReceived
      ensures Valid() && lastPongReceived == Some(now)
      ensures now != 0 ==>
                forall later :: ReceivedPongRecently(later) <==> socketConnecting || later - now < DisconnectedTriggerMs
      ensures State() == if |old(subscriptions)| > 0 then Restart(old(State()), socketOpen, readyState) else old(State())
    {
      lastPongReceived := Some(now);
      if |subscriptions| > 0 {
        RestartPreviousSubscriptions();
      }
    }

    /** `connect`: reset the flags and the ticker cache; with an open socket
        continue at once, otherwise create a socket (CONNECTING) and wait for
        its open event. */
    method Connect(now: int)
      requires Valid()
      modifies this, eventHandler`lastTickers
      ensures Valid()
      ensures socketConnecting && !askingClose && lastPongReceived == Some(now)
      ensures now != 0 ==> forall later :: ReceivedPongRecently(later)
      ensures eventHandler.lastTickers == map[]
      ensures socketOpen == old(socketOpen)
      ensures !old(socketOpen) ==> wsPresent && readyState == 0 && State() == old(State())
      ensures old(socketOpen) ==> wsPresent == old(wsPresent) && readyState == old(readyState)
      ensures old(socketOpen) ==>
                State() == if |old(subscriptions)| > 0 then Restart(old(State()), true, readyState) else old(State())
    {
      lastPongReceived := Some(now);
      socketConnecting := true;
      askingClose := false;
      eventHandler.ClearCache();
      if !socketOpen {
        wsPresent := true;
        readyState := 0;
        return;
      }
      Resumed(now);
    }

    /** The socket's open event, which completes `connect`. */
    method OnOpen(now: int)
      requires Valid() && wsPresent
      modifies this
      ensures Valid()
      ensures readyState == 1 && socketOpen && wsPresent && !socketConnecting && lastPongReceived == Some(now)
      ensures now != 0 ==> forall later :: ReceivedPongRecently(later) <==> later - now < DisconnectedTriggerMs
      ensures askingClose == old(askingClose)
      ensures State() == if |old(subscriptions)| > 0 then Restart(old(State()), true, 1) else old(State())
    {
      readyState := 1;
      socketOpen := true;
      socketConnecting := false;
      Resumed(now);
    }

    /** The socket's close event: the queue is dropped, the socket forgotten,
        and a reconnect scheduled unless the close was asked for. */
    method OnClose()
      requires Valid()
      modifies this`jobs, this`timers, this`socketOpen, this`wsPresent
      ensures Valid()
      ensures !socketOpen && !wsPresent && jobs == []
      ensures timers == old(timers) + (if askingClose then [] else [ReconnectTimer])
    {
      jobs := [];
      socketOpen := false;
      wsPresent := false;
      if !askingClose {
        timers := timers + [ReconnectTimer];
      }
    }

    /** `sendPing`: throws unless open; waits for `pong` and sends a ping. */
    method SendPing() returns (exit: Exit)
      requires Valid()
      modifies this`timers, this`effects, eventHandler`waits
      ensures Valid()
      ensures !IsSocketOpen() ==> exit == NotConnectedError && State() == old(State())
                                  && eventHandler.waits == old(eventHandler.waits)
      ensures IsSocketOpen() ==>
                var reg := Registration(old(eventHandler.waits.nextTicket), PongAck);
                && exit == Returned
                && eventHandler.waits == Register(old(eventHandler.waits), "pong", PongAck).0
                && State() == old(State()).(timers := old(timers) + [WaitTimer("pong", reg)], effects := old(effects) + [SentPing])
    {
      if !IsSocketOpen() {
        return NotConnectedError;
      }
      var reg := eventHandler.WaitForEvent("pong", PongAck);
      timers := timers + [WaitTimer("pong", reg)];
      effects := effects + [SentPing];
      exit := Returned;
    }

    /** A wait callback firing with `result`. */
    method Resume(c: Continuation, result: bool, now: int)
      requires Valid()
      modifies this`subscriptions, this`timers, this`effects, this`lastPongReceived, eventHandler`lastTickers
      ensures Valid()
      ensures State() == Acknowledge(old(State()), c, result)
      ensures lastPongReceived == if c.PongAck? && result then Some(now) else old(lastPongReceived)
      ensures c.PongAck? && result && now != 0 ==>
                forall later :: ReceivedPongRecently(later) <==> socketConnecting || later - now < DisconnectedTriggerMs
      ensures eventHandler.lastTickers ==
                if result && c.UnsubscribeAck? && c.req.TickerReq?
                then old(eventHandler.lastTickers) - {FormatSymbol(c.req.symbol)}
                else old(eventHandler.lastTickers)
    {
      match c
      case SubscribeAck(req) =>
        if !result {
          RemoveSubscription(KeyOf(req));
          timers := timers + [ResubscribeTimer(req)];
        }
      case UnsubscribeAck(req) =>
        if result {
          if req.TickerReq? {
            eventHandler.DeleteTickerCache(FormatSymbol(req.symbol));
          }
        } else {
          AddSubscription(EntryOf(req));
        }
      case PongAck =>
        if result {
          lastPongReceived := Some(now);
        }
    }

    /** An inbound frame: the handler dispatches it, and a resolved wait runs
        its callback with true. */
    method OnMessage(m: MessageData, now: int) returns (out: EventHandler.Outcome<Continuation>)
      requires Valid()
      modifies this`subscriptions, this`timers, this`effects, this`lastPongReceived, eventHandler
      ensures Valid()
      ensures out.Resolved? ==> State() == Acknowledge(old(State()), out.firing.registration.callback, true)
      ensures !out.Resolved? ==> State() == old(State()) && lastPongReceived == old(lastPongReceived)
      ensures out.Resolved? <==> EventKey(m) in old(eventHandler.waits.pending)
    {
      out := eventHandler.ProcessMessage(m);
      if out.Resolved? {
        Resume(out.firing.registration.callback, true, now);
      }
    }

    /** The send queue runs its oldest job: register the wait for the reply
        (and its 1.5 s timer), then send; a send error runs the rollback. */
    method RunNextJob(sendFails: bool)
      requires Valid()
      modifies this`subscriptions, this`jobs, this`timers, this`effects, eventHandler`waits
      ensures Valid()
      ensures old(jobs) == [] ==> State() == old(State()) && eventHandler.waits == old(eventHandler.waits)
      ensures old(jobs) != [] ==>
                var job := old(jobs)[0];
                var reg := Registration(old(eventHandler.waits.nextTicket), JobContinuation(job));
                && eventHandler.waits == Register(old(eventHandler.waits), JobKey(job), JobContinuation(job)).0
                && State() == Send(old(State()).(jobs := old(jobs)[1..], timers := old(timers) + [WaitTimer(JobKey(job), reg)]),
                                   wsPresent, sendFails, job)
    {
      if jobs == [] {
        return;
      }
      var job := jobs[0];
      jobs := jobs[1..];
      var reg := eventHandler.WaitForEvent(JobKey(job), JobContinuation(job));
      timers := timers + [WaitTimer(JobKey(job), reg)];
      if !wsPresent {
        return;
      }
      effects := effects + [Sent(Op(job), Channel(job.req), FormatSymbol(job.req.symbol))];
      if sendFails {
        effects := effects + [Published(ErrorTopic)];
        match job
        case SubscribeJob(req) =>
          timers := timers + [ResubscribeTimer(req)];
          RemoveSubscription(KeyOf(req));
        case UnsubscribeJob(req) =>
          AddSubscription(EntryOf(req));
      }
    }

    // -------------------------------------------------------------------
    // Timers going off (each is removed from `timers` as it fires)

    /** A `sub()` retry: the closure runs again (the entry is not re-added). */
    method RetryFired(i: nat)
      requires Valid() && i < |timers| && timers[i].RetryTimer?
      modifies this`jobs, this`timers, this`effects
      ensures Valid()
      ensures State() == Attempt(old(State()).(timers := old(timers[..i] + timers[i + 1..])), IsSocketOpen(), readyState, old(timers[i].req))
    {
      var req := timers[i].req;
      timers := timers[..i] + timers[i + 1..];
      Sub(req);
    }

    /** The re-subscription after a refused or failed subscribe. */
    method ResubscribeFired(i: nat)
      requires Valid() && i < |timers| && timers[i].ResubscribeTimer?
      modifies this`subscriptions, this`jobs, this`timers, this`effects
      ensures Valid()
      ensures State() == Resubscribe(old(State()).(timers := old(timers[..i] + timers[i + 1..])), IsSocketOpen(), readyState, old(timers[i].req))
    {
      var req := timers[i].req;
      timers := timers[..i] + timers[i + 1..];
      effects := effects + [Published(RetrySubscriptionTopic)];
      SubscribeFeed(RetryRequest(req));
    }

    /** The deferred replay. */
    method RestartFired(i: nat)
      requires Valid() && i < |timers| && timers[i].RestartTimer?
      modifies this`subscriptions, this`jobs, this`timers, this`effects
      ensures Valid()
      ensures State() == Restart(old(State()).(timers := old(timers[..i] + timers[i + 1..])), socketOpen, readyState)
    {
      timers := timers[..i] + timers[i + 1..];
      RestartPreviousSubscriptions();
    }

    /** `reconnect` after its 5 s delay: publish `reconnect`, then `connect`. */
    method ReconnectFired(i: nat, now: int)
      requires Valid() && i < |timers| && timers[i].ReconnectTimer?
      modifies this, eventHandler`lastTickers
      ensures Valid()
      ensures socketConnecting && !askingClose && lastPongReceived == Some(now)
      ensures !old(socketOpen) ==> wsPresent && readyState == 0 && !socketOpen
      ensures !old(socketOpen) ==>
                State() == old(State()).(timers := old(timers[..i] + timers[i + 1..]), effects := old(effects) + [Published(ReconnectTopic)])
    {
      timers := timers[..i] + timers[i + 1..];
      effects := effects + [Published(ReconnectTopic)];
      Connect(now);
    }

    /** The 1.5 s timer of a wait: when any wait is pending under its key,
        the handler deletes it and fires the timer's own callback with false,
        even when the pending wait is a newer one (the timer as written). */
    method WaitTimedOut(i: nat, now: int)
      requires Valid() && i < |timers| && timers[i].WaitTimer?
      modifies this`subscriptions, this`timers, this`effects, this`lastPongReceived, eventHandler`waits, eventHandler`lastTickers
      ensures Valid()
      ensures var t := old(timers[i]);
              var rest := old(State()).(timers := old(timers[..i] + timers[i + 1..]));
              && eventHandler.waits == Expire(old(eventHandler.waits), t.key, t.registration).0
              && State() == if t.key in old(eventHandler.waits.pending)
                            then Acknowledge(rest, t.registration.callback, false) else rest
    {
      var t := timers[i];
      timers := timers[..i] + timers[i + 1..];
      var fired := eventHandler.Timeout(t.key, t.registration);
      if fired.Some? {
        Resume(fired.value.registration.callback, false, now);
      }
    }

    // -------------------------------------------------------------------
    // The periodic staleness sweep

    /** `shouldReconnectTickers`: unsubscribe and subscribe again every ticker
        pair that is stale against the ticker cache; the first unsubscribe
        throws when the socket is not open. */
    method ShouldReconnectTickers(now: int) returns (exit: Exit)
      requires Valid()
      modifies this`subscriptions, this`jobs, this`timers, this`effects
      ensures Valid()
      ensures var pairs := StaleFeeds(old(subscriptions), true, Timestamps(eventHandler.lastTickers), now);
              if !IsSocketOpen() && |pairs| > 0 then exit == NotConnectedError && State() == old(State())
              else exit == Returned && State() == RefreshTickers(old(State()), IsSocketOpen(), readyState, pairs)
    {
      var pairs := StaleFeeds(subscriptions, true, Timestamps(eventHandler.GetLastTickers()), now);
      if |pairs| == 0 {
        return Returned;
      }
      if !IsSocketOpen() {
        return NotConnectedError;
      }
      RefreshTickerPairs(pairs);
      exit := Returned;
    }

    /** The sweep's loop: every stale ticker pair in turn, on an open socket. */
    method RefreshTickerPairs(pairs: seq<string>)
      requires Valid() && IsSocketOpen()
      modifies this`subscriptions, this`jobs, this`timers, this`effects
      ensures Valid() && IsSocketOpen()
      ensures State() == RefreshTickers(old(State()), true, readyState, pairs)
    {
      ghost var start := State();
      for i := 0 to |pairs|
        invariant Valid() && IsSocketOpen()
        invariant State() == RefreshTickers(start, true, readyState, pairs[..i])
      {
        RefreshTickerPair(pairs[i]);
        RefreshTickersStep(start, true, readyState, pairs, i);
      }
      assert pairs[..|pairs|] == pairs;
    }

    /** One stale ticker pair, the socket being open. */
    method RefreshTickerPair(p: string)
      requires Valid() && IsSocketOpen()
      modifies this`subscriptions, this`jobs, this`timers, this`effects
      ensures Valid() && IsSocketOpen()
      ensures State() == RefreshTicker(old(State()), true, readyState, p)
    {
      var _ := UnsubscribeTicker(p);
      SubscribeTicker(p);
    }

    /** `shouldReconnectDeadSockets`: with an open socket, the ticker sweep. */
    method ShouldReconnectDeadSockets(now: int)
      requires Valid()
      modifies this`subscriptions, this`jobs, this`timers, this`effects
      ensures Valid()
      ensures !IsSocketOpen() ==> State() == old(State())
      ensures IsSocketOpen() ==>
                State() == RefreshTickers(old(State()), true, readyState,
                                          StaleFeeds(old(subscriptions), true, Timestamps(eventHandler.lastTickers), now))
    {
      if !IsSocketOpen() {
        return;
      }
      var _ := ShouldReconnectTickers(now);
    }
  }
}
