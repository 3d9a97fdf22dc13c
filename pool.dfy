/** The `FtxWS` pool of `src/index.ts` (and its compiled copy
    `dist/index.js`): two lists of full clients, one for ticker and trades
    subscriptions and one for candles. A list only ever grows; a new client
    is appended when the last one has reached the 98-subscription ceiling.
    The 32 s sweep timer is an event the environment fires by calling
    `CheckDisconnectedClients`. */
module Pool {
  import opened Models
  import opened Subscriptions
  import FeedClient

  type Client = FeedClient.Client

  /** `maxSubscriptions`. */
  const MaxSubscriptions := 98
  /** `intervalCheckConnection`: the period of the sweep. */
  const CheckIntervalMs := 32000

  predicate Distinct(list: seq<Client>)
  {
    forall i, j :: 0 <= i < j < |list| ==> list[i] != list[j]
  }

  /** A client that is in neither part of a distinct list can be added
      between them. */
  lemma DistinctInsert(a: seq<Client>, b: seq<Client>, c: Client)
    requires Distinct(a + b) && c !in a + b
    ensures Distinct(a + [c] + b)
  {
    var r := a + [c] + b;
    forall i, j | 0 <= i < j < |r|
      ensures r[i] != r[j]
    {
      if i != |a| && j != |a| {
        var i' := if i < |a| then i else i - 1;
        var j' := if j < |a| then j else j - 1;
        assert r[i] == (a + b)[i'] && r[j] == (a + b)[j'];
      } else if i == |a| {
        assert r[j] in a + b by { assert r[j] == (a + b)[j - 1]; }
      } else {
        assert r[i] in a + b by { assert r[i] == (a + b)[i]; }
      }
    }
  }

  /** The two parts of a distinct list share no client. */
  lemma DistinctParts(a: seq<Client>, b: seq<Client>)
    requires Distinct(a + b)
    ensures forall x :: x in a ==> x !in b
  {
    forall i, j | 0 <= i < |a| && 0 <= j < |b|
      ensures a[i] != b[j]
    {
      assert (a + b)[i] == a[i] && (a + b)[|a| + j] == b[j];
    }
  }

  /** `list.every(client => client.isSocketOpen())`. */
  predicate AllOpen(list: seq<Client>)
    reads list
  {
    forall i :: 0 <= i < |list| ==> list[i].IsSocketOpen()
  }

  /** `list.some(client => client.isSocketConnecting())`. */
  predicate AnyConnecting(list: seq<Client>)
    reads list
  {
    exists i :: 0 <= i < |list| && list[i].IsSocketConnecting()
  }

  /** The `reduce` summing `getSubscriptionNumber` over the clients. */
  function SumCounts(list: seq<Client>): nat
    reads list
    decreases |list|
  {
    if list == [] then 0 else SumCounts(list[..|list| - 1]) + list[|list| - 1].GetSubscriptionNumber()
  }

  /** The total over two lists is the total of the first plus the total of
      the second. */
  lemma {:induction false} SumCountsAppend(a: seq<Client>, b: seq<Client>)
    ensures SumCounts(a + b) == SumCounts(a) + SumCounts(b)
    decreases |b|
  {
    if b == [] {
      assert a + b == a;
    } else {
      var b' := b[..|b| - 1];
      assert (a + b)[..|a + b| - 1] == a + b';
      SumCountsAppend(a, b');
    }
  }

  /** `list.some(client => client.has*Subscription(...))`. */
  predicate AnyHolds(list: seq<Client>, k: Key)
    reads list
  {
    exists i :: 0 <= i < |list| && Has(list[i].subscriptions, k)
  }

  /** `list.find(client => client.has*Subscription(...))`, as an index
      (`|list|` when no client holds the subscription). */
  function FirstHolding(list: seq<Client>, k: Key): (i: nat)
    reads list
    ensures i <= |list|
    ensures i < |list| ==> Has(list[i].subscriptions, k)
    ensures forall j :: 0 <= j < i ==> !Has(list[j].subscriptions, k)
    ensures i == |list| <==> !AnyHolds(list, k)
    decreases |list|
  {
    if list == [] then 0
    else if Has(list[0].subscriptions, k) then 0
    else 1 + FirstHolding(list[1..], k)
  }

  /** What `closeConnection` of a client does with its state: it throws while
      it holds subscriptions, throws when it has no socket, and otherwise
      closes. */
  function CloseExit(c: Client): (exit: Exit)
    reads c
    ensures exit == Returned ==> c.subscriptions == [] && c.wsPresent
    ensures c.subscriptions != [] ==> exit == ActiveSubscriptionsError(|c.subscriptions|)
  {
    if |c.subscriptions| > 0 then ActiveSubscriptionsError(|c.subscriptions|)
    else if !c.wsPresent then TypeErrorThrown
    else Returned
  }

  /** The first client whose `closeConnection` throws (`|list|` if none). */
  function FirstCloseFailure(list: seq<Client>): (i: nat)
    reads list
    ensures i <= |list|
    ensures i < |list| ==> CloseExit(list[i]) != Returned
    ensures forall j :: 0 <= j < i ==> CloseExit(list[j]) == Returned
    decreases |list|
  {
    if list == [] then 0
    else if CloseExit(list[0]) != Returned then 0
    else 1 + FirstCloseFailure(list[1..])
  }

  /** The sweep of one client on its ledger: no recent pong force-closes an
      open socket; otherwise the staleness check runs (on an open socket). */
  function Sweep(l: Ledger, isOpen: bool, readyState: nat, pongRecent: bool,
                 tickerTimes: map<string, int>, lastTrades: map<string, int>, now: int): (r: Ledger)
    ensures !isOpen ==> r == l
    ensures !pongRecent ==> r.subs == l.subs && r.jobs == l.jobs && r.timers == l.timers
  {
    if !pongRecent then (if isOpen then l.(effects := l.effects + [CloseRequested]) else l)
    else if !isOpen then l
    else
      var mid := RefreshTickers(l, true, readyState, StaleFeeds(l.subs, true, tickerTimes, now));
      RefreshTrades(mid, true, readyState, StaleFeeds(mid.subs, false, lastTrades, now))
  }

  /** A client that receives no pong is only closed: its list, queue and
      timers are left for the reconnect to replay; a client with a recent pong
      on a closed socket is left alone. */
  lemma SweepDoesOneThing(l: Ledger, isOpen: bool, readyState: nat, pongRecent: bool,
                          tickerTimes: map<string, int>, lastTrades: map<string, int>, now: int)
    ensures var r := Sweep(l, isOpen, readyState, pongRecent, tickerTimes, lastTrades, now);
            && (!pongRecent ==> r.subs == l.subs && r.jobs == l.jobs && r.timers == l.timers)
            && (!pongRecent && isOpen ==> r.effects == l.effects + [CloseRequested])
            && (pongRecent && !isOpen ==> r == l)
  {
  }

  /** A new client's ledger after its first feed: the entry, and the 2 s
      retry of a socket that is not open yet. */
  function FirstFeedOfNewClient(req: Request): Ledger
  {
    Ledger([EntryOf(req)], [], [RetryTimer(req, RetrySubscriptionMs)], [SubscriptionsChanged], 0, {})
  }

  /** A client whose socket is still connecting holds nothing, so its first
      feed is recorded and a retry is armed in place of a send. */
  lemma SubscribeOnNewClient(readyState: nat, req: Request)
    ensures Subscribe(Ledger([], [], [], [], 0, {}), false, readyState, req) == FirstFeedOfNewClient(req)
  {
  }

  /** A candle subscription adds at most two entries to its client (the
      candle and its trades feed), and exactly two on a client holding
      neither: a candle client at 97 reaches 99, one above the ceiling. */
  lemma CandleAddsAtMostTwo(l: Ledger, isOpen: bool, readyState: nat, symbol: string, interval: string)
    ensures var r := Subscriptions.SubscribeCandle(l, isOpen, readyState, symbol, interval, TradesReq(symbol, true));
            && |l.subs| <= |r.subs| <= |l.subs| + 2
            && (!Has(l.subs, CandleKey(symbol, interval)) && !Has(l.subs, TradesKey(symbol)) ==> |r.subs| == |l.subs| + 2)
  {
    if !Has(l.subs, CandleKey(symbol, interval)) {
      var id := l.nextEmulator;
      var launched := l.(effects := l.effects + [EmulatorLaunched(id, FormatSymbol(symbol), interval)], nextEmulator := id + 1);
      SubscribeAppendsOnce(launched, isOpen, readyState, TradesReq(symbol, true));
    }
  }

  /** The sweep's callback on one client: force-close without a recent
      pong, otherwise the staleness check. */
  method SweepClient(c: Client, now: int, lastTrades: map<string, int>)
    requires c.Valid()
    modifies c`subscriptions, c`jobs, c`timers, c`effects, c`readyState
    ensures c.Valid()
    ensures c.State() == old(Sweep(c.State(), c.IsSocketOpen(), c.readyState, c.ReceivedPongRecently(now),
                                   Timestamps(c.eventHandler.lastTickers), lastTrades, now))
  {
    if !c.ReceivedPongRecently(now) {
      c.ForceCloseConnection();
    } else {
      c.ShouldReconnectDeadSockets(now, lastTrades);
    }
  }

  /** How the plain list may change across a subscription: it only grows,
      by fresh clients, and no client loses a subscription. */
  twostate predicate Grown(before: seq<Client>, new after: seq<Client>)
    reads after
  {
    && before <= after
    && (forall j :: |before| <= j < |after| ==> fresh(after[j]))
    && (forall i :: 0 <= i < |before| ==> old(before[i].subscriptions) <= after[i].subscriptions)
  }

  /** What `subscribeTicker` / `subscribeTrades` did when no plain client
      held the feed: the last client of the list took it, below the ceiling
      before and at most at it after. Either it was already there and
      subscribed as `Subscribe` says, or it is a new client whose ledger is
      the first subscription's. No other client changed. */
  twostate predicate TookFeed(before: seq<Client>, new after: seq<Client>, req: Request)
    reads after
  {
    && Grown(before, after) && |after| > 0
    && var c := after[|after| - 1];
       && Has(c.subscriptions, KeyOf(req))
       && c.GetSubscriptionNumber() <= MaxSubscriptions
       && (forall i :: 0 <= i < |before| && before[i] != c ==> unchanged(before[i]))
       && (c in before ==> c.State() == Subscribe(old(c.State()), c.IsSocketOpen(), c.readyState, req))
       && (c !in before ==> fresh(c) && c.State() == FirstFeedOfNewClient(req))
  }

  /** The sweep over `all`, in order: each client is swept once, on the
      state it had before the sweep began. */
  method SweepEach(all: seq<Client>, now: int, lastTrades: map<string, int>)
    requires Distinct(all) && forall j :: 0 <= j < |all| ==> all[j].Valid()
    modifies all
    ensures forall j :: 0 <= j < |all| ==> all[j].Valid()
    ensures forall j :: 0 <= j < |all| ==>
              all[j].State() == old(Sweep(all[j].State(), all[j].IsSocketOpen(), all[j].readyState,
                                          all[j].ReceivedPongRecently(now),
                                          Timestamps(all[j].eventHandler.lastTickers), lastTrades, now))
  {
    for i := 0 to |all|
      invariant forall j :: 0 <= j < |all| ==> all[j].Valid()
      invariant forall j :: 0 <= j < i ==>
                  all[j].State() == old(Sweep(all[j].State(), all[j].IsSocketOpen(), all[j].readyState,
                                              all[j].ReceivedPongRecently(now),
                                              Timestamps(all[j].eventHandler.lastTickers), lastTrades, now))
      invariant forall j :: i <= j < |all| ==> unchanged(all[j])
    {
      assert forall j :: 0 <= j < |all| && j != i ==> all[j] != all[i];
      SweepClient(all[i], now, lastTrades);
    }
  }

  /** The cascade of `closeConnection` over `all`, in order: each client
      closes until the first one that throws, whose error is returned. */
  method CloseEach(all: seq<Client>) returns (exit: Exit)
    requires Distinct(all) && forall j :: 0 <= j < |all| ==> all[j].Valid()
    modifies all
    ensures forall j :: 0 <= j < |all| ==> all[j].Valid()
    ensures var k := old(FirstCloseFailure(all));
            && exit == (if k == |all| then Returned else old(CloseExit(all[k])))
            && (forall j :: 0 <= j < k ==> all[j].askingClose && all[j].effects == old(all[j].effects) + [CloseRequested])
            && (k < |all| ==> all[k].State() == old(all[k].State()))
            && (forall j :: k < j < |all| ==> unchanged(all[j]))
  {
    ghost var k := FirstCloseFailure(all);
    exit := Returned;
    var i := 0;
    while i < |all|
      invariant 0 <= i <= k
      invariant forall j :: 0 <= j < |all| ==> all[j].Valid()
      invariant forall j :: 0 <= j < i ==> all[j].askingClose && all[j].effects == old(all[j].effects) + [CloseRequested]
      invariant forall j :: i <= j < |all| ==> unchanged(all[j])
      invariant exit == Returned
    {
      assert forall j :: 0 <= j < |all| && j != i ==> all[j] != all[i];
      label Before:
      exit := all[i].CloseConnection();
      assert exit == old@Before(CloseExit(all[i]));
      if exit != Returned {
        return;
      }
      i := i + 1;
    }
  }

  class FtxWS {
    const candleIntervals: set<string>
    var clientList: seq<Client>
    var clientCandleList: seq<Client>

    ghost predicate Valid()
      reads this, clientList, clientCandleList
    {
      && Distinct(clientList + clientCandleList)
      && (forall i :: 0 <= i < |clientList| ==> clientList[i].Valid() && clientList[i].candleIntervals == candleIntervals)
      && (forall i :: 0 <= i < |clientCandleList| ==>
            clientCandleList[i].Valid() && clientCandleList[i].candleIntervals == candleIntervals)
    }

    constructor (candleIntervals: set<string>)
      ensures Valid() && this.candleIntervals == candleIntervals
      ensures clientList == [] && clientCandleList == []
    {
      this.candleIntervals := candleIntervals;
      clientList := [];
      clientCandleList := [];
    }

    /** `isSocketOpen`: every client of both lists is open. */
    function IsSocketOpen(): (r: bool)
      reads this, clientList, clientCandleList
      ensures r <==> forall c :: c in clientList + clientCandleList ==> c.IsSocketOpen()
    {
      AllOpen(clientList) && AllOpen(clientCandleList)
    }

    /** `isSocketConnecting`: some client of either list is connecting. */
    function IsSocketConnecting(): (r: bool)
      reads this, clientList, clientCandleList
      ensures r <==> exists c :: c in clientList + clientCandleList && c.IsSocketConnecting()
    {
      AnyConnecting(clientList) || AnyConnecting(clientCandleList)
    }

    /** `getSubscriptionNumber`: the `reduce` over the concatenated lists,
        which is the plain clients' total plus the candle clients' total. */
    function GetSubscriptionNumber(): (n: nat)
      reads this, clientList, clientCandleList
      ensures n == SumCounts(clientList) + SumCounts(clientCandleList)
    {
      SumCountsAppend(clientList, clientCandleList);
      SumCounts(clientList + clientCandleList)
    }

    /** `getLastClient(false)`: the last plain client while it holds fewer
        than 98 subscriptions; otherwise a new client, appended and
        connected. Either way the client returned is below the ceiling. */
    method GetLastClient(now: int) returns (c: Client)
      requires Valid()
      modifies this`clientList
      ensures Valid()
      ensures c.GetSubscriptionNumber() < MaxSubscriptions
      ensures |clientList| > 0 && c == clientList[|clientList| - 1]
      ensures c in old(clientList) <==>
                |old(clientList)| > 0 && old(clientList[|clientList| - 1].GetSubscriptionNumber()) < MaxSubscriptions
      ensures c in old(clientList) ==> clientList == old(clientList)
      ensures c !in old(clientList) ==>
                && clientList == old(clientList) + [c] && fresh(c)
                && c.State() == Ledger([], [], [], [], 0, {})
                && c.wsPresent && !c.socketOpen && c.readyState == 0 && c.socketConnecting
                && c.lastPongReceived == Some(now)
    {
      if |clientList| > 0 && clientList[|clientList| - 1].GetSubscriptionNumber() < MaxSubscriptions {
        return clientList[|clientList| - 1];
      }
      c := OpenClient(now);
    }

    /** The branch of `getLastClient` that opens a new client: it starts
        connecting and is appended to the plain list. */
    method OpenClient(now: int) returns (c: Client)
      requires Valid()
      modifies this`clientList
      ensures Valid() && clientList == old(clientList) + [c] && fresh(c)
      ensures c.State() == Ledger([], [], [], [], 0, {})
      ensures c.wsPresent && !c.socketOpen && c.readyState == 0 && c.socketConnecting
      ensures c.lastPongReceived == Some(now)
    {
      c := new FeedClient.Client(candleIntervals);
      var _ := c.Connect(now);
      DistinctInsert(clientList, clientCandleList, c);
      clientList := clientList + [c];
    }

    /** `getLastClient(true)`: the same choice over the candle list. */
    method GetLastCandleClient(now: int) returns (c: Client)
      requires Valid()
      modifies this`clientCandleList
      ensures Valid()
      ensures c.GetSubscriptionNumber() < MaxSubscriptions
      ensures |clientCandleList| > 0 && c == clientCandleList[|clientCandleList| - 1]
      ensures c in old(clientCandleList) <==>
                |old(clientCandleList)| > 0 && old(clientCandleList[|clientCandleList| - 1].GetSubscriptionNumber()) < MaxSubscriptions
      ensures c in old(clientCandleList) ==> clientCandleList == old(clientCandleList)
      ensures c !in old(clientCandleList) ==>
                && clientCandleList == old(clientCandleList) + [c] && fresh(c)
                && c.State() == Ledger([], [], [], [], 0, {})
                && c.wsPresent && !c.socketOpen && c.readyState == 0 && c.socketConnecting
                && c.lastPongReceived == Some(now)
    {
      if |clientCandleList| > 0 && clientCandleList[|clientCandleList| - 1].GetSubscriptionNumber() < MaxSubscriptions {
        return clientCandleList[|clientCandleList| - 1];
      }
      c := new FeedClient.Client(candleIntervals);
      var _ := c.Connect(now);
      DistinctInsert(clientList + clientCandleList, [], c);
      assert clientList + clientCandleList + [c] == clientList + (clientCandleList + [c]);
      clientCandleList := clientCandleList + [c];
    }

    /** The body shared by `subscribeTicker` and `subscribeTrades`: nothing
        when some client of the plain list holds the feed; otherwise the
        client `getLastClient` picks subscribes it. Afterwards some client
        holds it, no subscription was lost, and no other client changed. */
    method SubscribeFeed(req: Request, now: int)
      requires Valid()
      modifies this`clientList, clientList
      ensures Valid() && clientCandleList == old(clientCandleList)
      ensures Grown(old(clientList), clientList)
      ensures AnyHolds(clientList, KeyOf(req))
      ensures old(AnyHolds(clientList, KeyOf(req))) ==>
                clientList == old(clientList) && forall x :: x in clientList ==> unchanged(x)
      ensures !old(AnyHolds(clientList, KeyOf(req))) ==> TookFeed(old(clientList), clientList, req)
    {
      if AnyHolds(clientList, KeyOf(req)) {
        return;
      }
      AddFeed(req, now);
    }

    /** The second half of `subscribeTicker` / `subscribeTrades`, once no
        plain client holds the feed: the last client (or a new one) takes it. */
    method AddFeed(req: Request, now: int)
      requires Valid() && !AnyHolds(clientList, KeyOf(req))
      modifies this`clientList, clientList
      ensures Valid() && TookFeed(old(clientList), clientList, req)
    {
      if |clientList| > 0 && clientList[|clientList| - 1].GetSubscriptionNumber() < MaxSubscriptions {
        FeedLastClient(req, now);
      } else {
        FeedNewClient(req, now);
      }
    }

    /** `AddFeed` when `getLastClient` keeps the last plain client. */
    method FeedLastClient(req: Request, now: int)
      requires Valid() && !AnyHolds(clientList, KeyOf(req))
      requires |clientList| > 0 && clientList[|clientList| - 1].GetSubscriptionNumber() < MaxSubscriptions
      modifies this`clientList, clientList
      ensures Valid() && clientList == old(clientList)
      ensures TookFeed(old(clientList), clientList, req)
    {
      var c := GetLastClient(now);
      label Picked:
      SubscribeOn(c, req);
      assert old(c.State()) == old@Picked(c.State());
      assert old(c.subscriptions) == old@Picked(c.subscriptions);
    }

    /** `AddFeed` when `getLastClient` opens a new plain client. */
    method FeedNewClient(req: Request, now: int)
      requires Valid()
      requires !(|clientList| > 0 && clientList[|clientList| - 1].GetSubscriptionNumber() < MaxSubscriptions)
      modifies this`clientList, clientList
      ensures Valid() && |clientList| == |old(clientList)| + 1 && old(clientList) <= clientList
      ensures var c := clientList[|old(clientList)|];
              fresh(c) && c.State() == FirstFeedOfNewClient(req) && Has(c.subscriptions, KeyOf(req))
      ensures forall i :: 0 <= i < |old(clientList)| ==> unchanged(old(clientList)[i])
    {
      ghost var before := clientList;
      var c := OpenClient(now);
      FeedOpened(c, req);
      forall i | 0 <= i < |before|
        ensures unchanged(before[i])
      {
        assert before[i] != c;
      }
    }

    /** A client just opened by `getLastClient` takes its first feed. */
    method FeedOpened(c: Client, req: Request)
      requires Valid() && c in clientList
      requires c.State() == Ledger([], [], [], [], 0, {}) && !c.IsSocketOpen()
      modifies c`subscriptions, c`jobs, c`timers, c`effects
      ensures Valid() && c.State() == FirstFeedOfNewClient(req) && Has(c.subscriptions, KeyOf(req))
    {
      SubscribeOn(c, req);
      SubscribeOnNewClient(c.readyState, req);
    }

    /** A client of the plain list subscribes a feed; the subscriptions it
        held are kept, and every other client is left alone. */
    method SubscribeOn(c: Client, req: Request)
      requires Valid() && c in clientList
      modifies c`subscriptions, c`jobs, c`timers, c`effects
      ensures Valid()
      ensures c.State() == Subscribe(old(c.State()), c.IsSocketOpen(), c.readyState, req)
      ensures Has(c.subscriptions, KeyOf(req))
      ensures old(c.subscriptions) <= c.subscriptions && |c.subscriptions| <= old(|c.subscriptions|) + 1
    {
      DistinctParts(clientList, clientCandleList);
      ghost var before := c.State();
      c.SubscribeFeed(req);
      SubscribeAppendsOnce(before, c.IsSocketOpen(), c.readyState, req);
      SubscribeSubs(before, c.IsSocketOpen(), c.readyState, req);
      HasSnoc(before.subs, EntryOf(req));
      if !Has(before.subs, KeyOf(req)) {
        assert Matches(c.subscriptions[|c.subscriptions| - 1], KeyOf(req));
      }
    }

    /** `subscribeTicker`. */
    method SubscribeTicker(symbol: string, now: int)
      requires Valid()
      modifies this`clientList, clientList
      ensures Valid() && clientCandleList == old(clientCandleList)
      ensures Grown(old(clientList), clientList)
      ensures AnyHolds(clientList, TickerKey(symbol))
      ensures old(AnyHolds(clientList, TickerKey(symbol))) ==>
                clientList == old(clientList) && forall x :: x in clientList ==> unchanged(x)
      ensures !old(AnyHolds(clientList, TickerKey(symbol))) ==> TookFeed(old(clientList), clientList, TickerReq(symbol))
    {
      SubscribeFeed(TickerReq(symbol), now);
    }

    /** `subscribeTrades` (with `forCandle` false). */
    method SubscribeTrades(symbol: string, now: int)
      requires Valid()
      modifies this`clientList, clientList
      ensures Valid() && clientCandleList == old(clientCandleList)
      ensures Grown(old(clientList), clientList)
      ensures AnyHolds(clientList, TradesKey(symbol))
      ensures old(AnyHolds(clientList, TradesKey(symbol))) ==>
                clientList == old(clientList) && forall x :: x in clientList ==> unchanged(x)
      ensures !old(AnyHolds(clientList, TradesKey(symbol))) ==> TookFeed(old(clientList), clientList, TradesReq(symbol, false))
    {
      SubscribeFeed(TradesReq(symbol, false), now);
    }

    /** `subscribeCandle`: nothing when some candle client holds the candle
        (looked up under the symbol as given); otherwise `getLastClient`
        picks a candle client, which may then refuse the interval. The
        picked client ends at most one above the ceiling. */
    method SubscribeCandle(symbol: string, interval: string, now: int) returns (exit: Exit)
      requires Valid()
      modifies this`clientCandleList, clientCandleList
      ensures Valid()
      ensures clientList == old(clientList) && old(clientCandleList) <= clientCandleList
      ensures exit == (if interval in candleIntervals || old(AnyHolds(clientCandleList, CandleKey(symbol, interval)))
                       then Returned else WrongIntervalError)
      ensures old(AnyHolds(clientCandleList, CandleKey(symbol, interval))) ==>
                clientCandleList == old(clientCandleList) && forall x :: x in clientCandleList ==> unchanged(x)
      ensures !old(AnyHolds(clientCandleList, CandleKey(symbol, interval))) ==> |clientCandleList| > 0
      ensures !old(AnyHolds(clientCandleList, CandleKey(symbol, interval))) ==>
                var c := clientCandleList[|clientCandleList| - 1];
                && c.GetSubscriptionNumber() <= MaxSubscriptions + 1
                && (forall x :: x in old(clientCandleList) && x != c ==> unchanged(x))
                && (interval in candleIntervals && c in old(clientCandleList) ==>
                      c.State() == Subscriptions.SubscribeCandle(old(c.State()), c.IsSocketOpen(), c.readyState,
                                                                 symbol, interval, TradesReq(symbol, true)))
                && (interval !in candleIntervals ==> c.GetSubscriptionNumber() == old(if c in clientCandleList then c.GetSubscriptionNumber() else 0))
      ensures '-' !in symbol && interval in candleIntervals ==> AnyHolds(clientCandleList, CandleKey(symbol, interval))
    {
      if AnyHolds(clientCandleList, CandleKey(symbol, interval)) {
        return Returned;
      }
      exit := AddCandle(symbol, interval, now);
    }

    /** The second half of `subscribeCandle`, once no candle client holds the
        candle: the last candle client (or a new one) takes it. */
    method AddCandle(symbol: string, interval: string, now: int) returns (exit: Exit)
      requires Valid() && !AnyHolds(clientCandleList, CandleKey(symbol, interval))
      modifies this`clientCandleList, clientCandleList
      ensures Valid()
      ensures old(clientCandleList) <= clientCandleList && |clientCandleList| > 0
      ensures exit == (if interval in candleIntervals then Returned else WrongIntervalError)
      ensures var c := clientCandleList[|clientCandleList| - 1];
              && c.GetSubscriptionNumber() <= MaxSubscriptions + 1
              && (forall x :: x in old(clientCandleList) && x != c ==> unchanged(x))
              && (interval in candleIntervals && c in old(clientCandleList) ==>
                    c.State() == Subscriptions.SubscribeCandle(old(c.State()), c.IsSocketOpen(), c.readyState,
                                                               symbol, interval, TradesReq(symbol, true)))
              && (interval !in candleIntervals ==>
                    c.GetSubscriptionNumber() == old(if c in clientCandleList then c.GetSubscriptionNumber() else 0))
              && ('-' !in symbol && interval in candleIntervals ==> Has(c.subscriptions, CandleKey(symbol, interval)))
    {
      var c := GetLastCandleClient(now);
      label Picked:
      exit := CandleOn(c, symbol, interval);
      if c in old(clientCandleList) {
        assert old(c.State()) == old@Picked(c.State());
      }
    }

    /** A candle client subscribes a candle; every other client is left alone. */
    method CandleOn(c: Client, symbol: string, interval: string) returns (exit: Exit)
      requires Valid() && c in clientCandleList
      modifies c`subscriptions, c`jobs, c`timers, c`effects, c`nextEmulator
      ensures Valid()
      ensures exit == (if interval in candleIntervals then Returned else WrongIntervalError)
      ensures c.State() == if interval in candleIntervals
                           then Subscriptions.SubscribeCandle(old(c.State()), c.IsSocketOpen(), c.readyState,
                                                              symbol, interval, TradesReq(symbol, true))
                           else old(c.State())
      ensures |c.subscriptions| <= old(|c.subscriptions|) + 2
      ensures '-' !in symbol && interval in candleIntervals ==> Has(c.subscriptions, CandleKey(symbol, interval))
    {
      DistinctParts(clientList, clientCandleList);
      ghost var before := c.State();
      exit := c.SubscribeCandle(symbol, interval);
      if interval in candleIntervals {
        CandleAddsAtMostTwo(before, c.IsSocketOpen(), c.readyState, symbol, interval);
        if '-' !in symbol {
          CandleLookupUsesRawSymbol(before, c.IsSocketOpen(), c.readyState, symbol, interval, TradesReq(symbol, true));
        }
      }
    }

    /** `unsubscribeTicker`: the first client of the plain list holding the
        ticker unsubscribes it (and throws when its socket is not open); no
        holder, nothing happens. */
    method UnsubscribeTicker(symbol: string) returns (exit: Exit)
      requires Valid()
      modifies clientList
      ensures Valid()
      ensures var i := old(FirstHolding(clientList, TickerKey(symbol)));
              && (i == |clientList| ==> exit == Returned && forall x :: x in clientList ==> unchanged(x))
              && (i < |clientList| ==>
                    var c := clientList[i];
                    && exit == (if c.IsSocketOpen() then Returned else NotConnectedError)
                    && c.State() == (if c.IsSocketOpen() then Unsubscribe(old(c.State()), TickerKey(symbol)) else old(c.State()))
                    && forall x :: x in clientList && x != c ==> unchanged(x))
    {
      var i := FirstHolding(clientList, TickerKey(symbol));
      if i == |clientList| {
        return Returned;
      }
      exit := clientList[i].UnsubscribeTicker(symbol);
    }

    /** `unsubscribeTrades`: the same delegation for a trades feed. */
    method UnsubscribeTrades(symbol: string) returns (exit: Exit)
      requires Valid()
      modifies clientList
      ensures Valid()
      ensures var i := old(FirstHolding(clientList, TradesKey(symbol)));
              && (i == |clientList| ==> exit == Returned && forall x :: x in clientList ==> unchanged(x))
              && (i < |clientList| ==>
                    var c := clientList[i];
                    && exit == (if c.IsSocketOpen() then Returned else NotConnectedError)
                    && c.State() == (if c.IsSocketOpen() then Unsubscribe(old(c.State()), TradesKey(symbol)) else old(c.State()))
                    && forall x :: x in clientList && x != c ==> unchanged(x))
    {
      var i := FirstHolding(clientList, TradesKey(symbol));
      if i == |clientList| {
        return Returned;
      }
      exit := clientList[i].UnsubscribeTrades(symbol);
    }

    /** `unsubscribeCandle`: the first candle client holding the candle
        (under the symbol as given) unsubscribes it. */
    method UnsubscribeCandle(symbol: string, interval: string) returns (exit: Exit)
      requires Valid()
      modifies clientCandleList
      ensures Valid()
      ensures var i := old(FirstHolding(clientCandleList, CandleKey(symbol, interval)));
              && (i == |clientCandleList| ==> exit == Returned && forall x :: x in clientCandleList ==> unchanged(x))
              && (i < |clientCandleList| ==>
                    var c := clientCandleList[i];
                    && (c.State(), exit) == Subscriptions.UnsubscribeCandle(old(c.State()), c.IsSocketOpen(), symbol, interval)
                    && forall x :: x in clientCandleList && x != c ==> unchanged(x))
    {
      var i := FirstHolding(clientCandleList, CandleKey(symbol, interval));
      if i == |clientCandleList| {
        return Returned;
      }
      DistinctParts(clientList, clientCandleList);
      exit := clientCandleList[i].UnsubscribeCandle(symbol, interval);
    }

    /** `subscribeTickers`: `subscribeTicker` for each symbol in turn;
        afterwards every one of them is held by some plain client. */
    method SubscribeTickers(symbols: seq<string>, now: int)
      requires Valid()
      modifies this`clientList, clientList
      ensures Valid()
      ensures clientCandleList == old(clientCandleList) && old(clientList) <= clientList
      ensures forall s :: s in symbols ==> AnyHolds(clientList, TickerKey(s))
    {
      for i := 0 to |symbols|
        invariant Valid()
        invariant clientCandleList == old(clientCandleList) && old(clientList) <= clientList
        invariant forall j :: |old(clientList)| <= j < |clientList| ==> fresh(clientList[j])
        invariant forall j :: 0 <= j < i ==> AnyHolds(clientList, TickerKey(symbols[j]))
      {
        SubscribeNextTicker(symbols, i, now);
      }
    }

    /** One round of `subscribeTickers`: the next symbol is subscribed and
        the earlier ones stay held. */
    method SubscribeNextTicker(symbols: seq<string>, i: nat, now: int)
      requires Valid() && i < |symbols|
      requires forall j :: 0 <= j < i ==> AnyHolds(clientList, TickerKey(symbols[j]))
      modifies this`clientList, clientList
      ensures Valid() && clientCandleList == old(clientCandleList) && Grown(old(clientList), clientList)
      ensures forall j :: 0 <= j <= i ==> AnyHolds(clientList, TickerKey(symbols[j]))
    {
      SubscribeTicker(symbols[i], now);
      forall j | 0 <= j < i
        ensures AnyHolds(clientList, TickerKey(symbols[j]))
      {
        var x :| 0 <= x < |old(clientList)| && old(Has(clientList[x].subscriptions, TickerKey(symbols[j])));
        HasPrefix(old(clientList[x].subscriptions), clientList[x].subscriptions, TickerKey(symbols[j]));
      }
    }

    /** `closeConnection`: every client of the plain list, then every candle
        client, closes in turn; the first one that throws stops the cascade
        and its error is the pool's. */
    method CloseConnection() returns (exit: Exit)
      requires Valid()
      modifies clientList, clientCandleList
      ensures Valid()
      ensures var all := clientList + clientCandleList;
              var k := old(FirstCloseFailure(all));
              && exit == (if k == |all| then Returned else old(CloseExit(all[k])))
              && (forall j :: 0 <= j < k ==> all[j].askingClose && all[j].effects == old(all[j].effects) + [CloseRequested])
              && (k < |all| ==> all[k].State() == old(all[k].State()))
              && (forall j :: k < j < |all| ==> unchanged(all[j]))
    {
      var all := clientList + clientCandleList;
      exit := CloseEach(all);
    }


    /** `checkDisconnectedClients`: for every client of both lists, in
        order, exactly one of force-close (no recent pong) or the staleness
        check. `lastTrades` is the last trade time per pair. */
    method CheckDisconnectedClients(now: int, lastTrades: map<string, int>)
      requires Valid()
      modifies clientList, clientCandleList
      ensures Valid()
      ensures var all := clientList + clientCandleList;
              forall j :: 0 <= j < |all| ==>
                all[j].State() == old(Sweep(all[j].State(), all[j].IsSocketOpen(), all[j].readyState,
                                            all[j].ReceivedPongRecently(now),
                                            Timestamps(all[j].eventHandler.lastTickers), lastTrades, now))
    {
      var all := clientList + clientCandleList;
      SweepEach(all, now, lastTrades);
    }
  }
}
