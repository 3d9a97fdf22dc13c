# ftx-ws, modelled in Dafny

This project models the core of `ftx-ws`, a client for the FTX websocket API.
It covers both forms the repository ships: the TypeScript sources under
`src/` and the compiled build under `dist/`. The compiled build carries
trades subscriptions and a ticker-driven candle emulator that the TypeScript
sources lack.

The model has these parts:

- **Candle emulators.** `Candles`, `TradeCandleEmulator` and
  `TickerCandleEmulator` cut OHLC candles whenever the interval bucket index
  of an observation changes.
- **Event correlator.** `Correlation`, `EventHandler` and `DualEventHandler`
  derive the key an inbound frame is matched under, keep the table of
  pending waits with their 1.5 s timeouts, and hold the per-market cache of
  the last ticker.
- **Subscription ledger.** `Subscriptions` gives, as pure functions of a
  `Ledger`, every change a client makes. A ledger holds the subscription
  list, the send queue, the armed timers and a log of outward effects.
- **Clients.** `TickerClient` models the ticker-only client of
  `src/client.ts`; `FeedClient` models the full client of `dist/client.js`.
  Each is a class whose methods are proved against the ledger functions.
  Socket events, the send queue running a job and timers going off are
  methods that the environment calls.
- **Pool.** `Pool.FtxWS` models the `FtxWS` object. It keeps one list of
  clients for tickers and trades and one for candles. A new client is opened
  once the last one reaches 98 subscriptions. The 32 s sweep checks every
  client for a recent pong and for stale feeds.

Time is a parameter (`now`), and so is the outcome of a send (`sendFails`).

## Model

| member | source | states |
|---|---|---|
| Models.FormatSymbol | src/client.ts:74 | `replace('-', '/')` rewrites only the first '-': the length is kept, every other character is kept, and the result equals the input exactly when the input has no '-' |
| Models.TruncReal | src/event-handler.ts:78-79 | the ticker timestamp `time * 1000` is truncated toward zero: within 1 below a non-negative value and within 1 above a negative one |
| Models.TruncDiv | src/candle-emulator.ts:47 | `Math.trunc(a / b)` for a positive divisor: Euclidean division for a >= 0, rounding toward zero for a < 0 |
| Candles.BucketWindow | src/candle-emulator.ts:47 | a non-negative timestamp lies in the interval-aligned window `[b * interval, (b + 1) * interval)` of its bucket `b` |
| Candles.Fold | src/candle-emulator.ts:69-81 | high is the larger of the two highs; low takes the observation while it is unset (0) and the smaller value afterwards; open is set only while unset; close and timestamp are the observation's |
| Candles.AdvanceEmitsIffBucketChanges | src/candle-emulator.ts:44-56 | one event publishes exactly one candle (the one current before the event) when the bucket index differs from the stored one, and none otherwise; the stored index becomes the event's bucket |
| Candles.FoldKeepsWellFormed | src/candle-emulator.ts:69-81 | folding a positive observation with low <= last <= high into a zero candle or a consistent bar gives a consistent bar |
| Candles.AdvanceKeepsWellFormed | src/candle-emulator.ts:44-56 | with such an observation the current candle and every published candle stay zero candles or consistent bars |
| TradeCandleEmulator.Buckets | src/candle-emulator.ts:47 | the bucket index of each trade, one per trade, in order |
| TradeCandleEmulator.ProcessTradesDivider | src/candle-emulator.ts:44-56 | after a non-empty batch the stored index is the last trade's bucket; an empty batch leaves it alone |
| TradeCandleEmulator.EmitsOncePerBucketChange | src/candle-emulator.ts:44-56 | a batch publishes exactly one candle per change of bucket index (the first trade counts against the index left by earlier batches) and keeps earlier publications as a prefix |
| TradeCandleEmulator.SameBucketNeverEmits | src/candle-emulator.ts:49 | trades that stay in the current bucket publish nothing and keep the index |
| TradeCandleEmulator.FirstTradeEmitsCurrentCandle | src/candle-emulator.ts:46-50 | the first trade after launch, with the index unset, always publishes the current (seed or zero) candle |
| TradeCandleEmulator.EarlierBucketAlsoEmits | src/candle-emulator.ts:49 | a trade in an earlier bucket also publishes, because the test is `!==` and not an ordering |
| TradeCandleEmulator.CrossingTradeStartsFreshCandle | src/candle-emulator.ts:49-54 | the trade that changes the bucket starts the new candle with open = high = low = close = its price (a positive one), its timestamp and the emulator's symbol |
| TradeCandleEmulator.WithinBucketMonotone | src/candle-emulator.ts:69-81 | within a bucket high never decreases, a set low never increases, a set open never changes, and close and timestamp follow the trade |
| TradeCandleEmulator.PositivePricesKeepCandlesWellFormed | src/candle-emulator.ts:44-81 | from a consistent start, positive trade prices keep the current candle and every published candle consistent |
| TradeCandleEmulator.FiveTradeExample | src/candle-emulator.ts:44-56 | trades at 0, 999, 1000, 1999 and 2000 ms with a 1 s interval publish three candles: the initial zero candle, then bucket 0 (open 1, close 2), then bucket 1 (open 3, close 4) |
| TradeCandleEmulator.CandleEmulator.constructor | src/candle-emulator.ts:18-26 | a new emulator holds the zero candle stamped with the clock, has no bucket index, and neither listens nor has published |
| TradeCandleEmulator.CandleEmulator.Launch | src/candle-emulator.ts:28-38 | a fetched candle replaces the current one, a failed fetch keeps it; the emulator then listens, and its bucket index and publications are unchanged |
| TradeCandleEmulator.CandleEmulator.Reset | src/candle-emulator.ts:40-42 | only stops listening; it needs a completed launch, and the candle, index and publications are unchanged |
| TradeCandleEmulator.CandleEmulator.ResetCurrentCandle | src/candle-emulator.ts:58-67 | the current candle becomes the zero candle of the symbol, stamped with the clock |
| TradeCandleEmulator.CandleEmulator.UpdateCurrentCandle | src/candle-emulator.ts:69-81 | the field-by-field update equals `Fold` with the trade price as high, low and last |
| TradeCandleEmulator.CandleEmulator.ProcessNextTrades | src/candle-emulator.ts:44-56 | the loop leaves the emulator in the state `ProcessTrades` gives for the batch, so the lemmas above apply to it |
| TickerCandleEmulator.TickerEmitsIffBucketChanges | dist/candle-emulator.js:31-39 | a ticker publishes the previous candle exactly when its bucket differs from the stored index (always after launch), and otherwise publishes nothing |
| TickerCandleEmulator.TickerFoldFields | dist/candle-emulator.js:50-60 | high and low come from the ticker's high and low, open (while unset) and close from its last price, and the timestamp from the ticker |
| TickerCandleEmulator.TickersKeepCandlesWellFormed | dist/candle-emulator.js:31-60 | positive tickers with low <= last <= high keep the current and the published candles consistent |
| TickerCandleEmulator.CandleEmulator.constructor | dist/candle-emulator.js:10-18 | a new emulator holds the zero candle stamped with the clock, has no bucket index, and neither listens nor has published |
| TickerCandleEmulator.CandleEmulator.Launch | dist/candle-emulator.js:19-27 | a fetched candle replaces the current one; the emulator then listens, with its bucket index unchanged |
| TickerCandleEmulator.CandleEmulator.Reset | dist/candle-emulator.js:28-30 | only stops listening, after a completed launch |
| TickerCandleEmulator.CandleEmulator.ResetCurrentCandle | dist/candle-emulator.js:40-49 | the zero candle of the symbol, stamped with the clock |
| TickerCandleEmulator.CandleEmulator.UpdateCurrentCandle | dist/candle-emulator.js:50-60 | the field-by-field update equals `Fold` with the ticker's high, low and last |
| TickerCandleEmulator.CandleEmulator.ProcessNextTicker | dist/candle-emulator.js:31-39 | the new state is `TickerStep` of the old one, the function the lemmas above are about |
| Correlation.AckFrameMatchesWaitKey | src/event-handler.ts:69-75 | a frame with a non-empty channel and market is matched under `type-channel-market`, the key the client waits on; a frame missing either (or with an empty one) is matched under its type alone |
| Correlation.EventKeyStartsWithType | src/event-handler.ts:69-75 | every key starts with the frame's type |
| Correlation.NormalizeTicker | src/event-handler.ts:77-91 | high and ask are the raw ask, low and bid the raw bid, last and close the raw last, and the timestamp is `time * 1000` truncated |
| Correlation.Register | src/event-handler.ts:21-33 | after a wait is registered, its key maps to the new resolver with the caller's callback, every other pending key is untouched, and the ticket is one not handed out before |
| Correlation.ResolutionDeletesKey | src/event-handler.ts:23-28 | a reply or a timer fires exactly when a wait is pending under the key; once it has fired, a later reply or timer on that key does nothing |
| Correlation.StaleTimerConsumesNewerWait | src/event-handler.ts:31-32 | after two registrations on one key, the first one's timer deletes the second and fires the first callback with false; a reply arriving after that fires nothing |
| Correlation.DoubleFiringAsWritten | src/event-handler.ts:23-32 | register, reply, register again, then the first timer: registration 0 fires twice and registration 1 never fires |
| Correlation.FiresAtMostOnce | src/event-handler.ts:23-32 | when the timer fires only its own registration, on every trace of registrations, replies and timers no callback fires twice |
| EventHandler.Handler.constructor | src/event-handler.ts:16-19 | starts with no pending wait, an empty ticker cache and nothing published |
| EventHandler.Handler.WaitForEvent | src/event-handler.ts:21-34 | the table becomes `Register` of the old one; the new registration is the one pending under `id` |
| EventHandler.Handler.Timeout | src/event-handler.ts:23-32 | as written: when any wait is pending under the key, the timer deletes it (whichever registration it is) and fires its own callback with false; with nothing pending it does nothing |
| EventHandler.Handler.ProcessMessage | src/event-handler.ts:36-55 | a frame whose key has a pending wait resolves it with true and does nothing else; otherwise an `error` frame publishes its message, a ticker update is normalised, cached under its market and published, a ticker update without data crashes, and any other frame changes nothing |
| EventHandler.Handler.ProcessRawTicker | src/event-handler.ts:77-95 | the cache maps the market to the normalised ticker, which is published once |
| EventHandler.Handler.DeleteTickerCache | src/event-handler.ts:57-59 | exactly the one market leaves the cache; every other entry is kept |
| EventHandler.Handler.ClearCache | src/event-handler.ts:61-63 | the cache is empty |
| EventHandler.Handler.GetLastTickers | src/event-handler.ts:65-67 | the ticker cache |
| DualEventHandler.Handler.constructor | dist/event-handler.js:7-14 | starts with no pending wait, an empty cache, and nothing published on either emitter |
| DualEventHandler.Handler.WaitForEvent | dist/event-handler.js:15-27 | the table becomes `Register` of the old one; nothing is published |
| DualEventHandler.Handler.Timeout | dist/event-handler.js:17-25 | the same timer as written: any wait pending under the key is deleted and the timer's own callback fires with false |
| DualEventHandler.Handler.ProcessMessage | dist/event-handler.js:28-42 | as in the TypeScript handler, except that a ticker is published on the global and on the internal emitter and an error only on the global one |
| DualEventHandler.Handler.ProcessRawTicker | dist/event-handler.js:58-76 | caches the normalised ticker and publishes it once on each emitter |
| DualEventHandler.Handler.DeleteTickerCache | dist/event-handler.js:43-45 | exactly the one market leaves the cache |
| DualEventHandler.Handler.ClearCache | dist/event-handler.js:46-48 | the cache is empty |
| DualEventHandler.Handler.GetLastTickers | dist/event-handler.js:49-51 | the ticker cache |
| Subscriptions.Find | dist/client.js:346 | `findIndex`: the first matching position (nothing before it matches), or the length exactly when nothing matches |
| Subscriptions.RemoveFirst | dist/client.js:342-349 | `remove*Subscription`: without a match the list is unchanged; otherwise it is one shorter and lost exactly the matched entry (as a multiset) |
| Subscriptions.RemoveFirstExact | dist/client.js:360-367 | removal by key takes out the first matching entry: earlier entries stay in place and later ones move up by one |
| Subscriptions.RemoveFirstSubset | dist/client.js:342-349 | every entry left after a removal was there before |
| Subscriptions.CandlesOnly | dist/client.js:383-385 | `filter(type === 'candle')` keeps only candle entries of the list |
| Subscriptions.RemoveCandleAsWrittenDropsTicker | dist/client.js:379-388 | with a ticker entry ahead of a candle, the as-written removal deletes the ticker and keeps the candle, while removal by key deletes the candle |
| Subscriptions.RemoveCandleAsWritten | dist/client.js:379-388 | without the candle the list is unchanged; otherwise the candle's index among the candle entries is found and exactly the entry at that index of the full list is spliced out |
| Subscriptions.RemoveCandleAsWrittenOnCandles | dist/client.js:383-386 | on a list holding only candles the as-written splice is the removal by key |
| Subscriptions.RemoveCandle | dist/client.js:379-388 | `removeCandleSubscription` on the ledger: nothing without the candle; otherwise the as-written splice and a notification |
| Subscriptions.CancelRetry | dist/client.js:60 | `clearInterval(mapRetrySubscription[keySub])` drops exactly the pending `sub()` retries filed under the key |
| Subscriptions.PongRecent | dist/client.js:257-266 | the pong window shared by both clients: false for a missing or zero pong time; otherwise true exactly while connecting or while the pong is less than two ping intervals (30 s) old |
| Subscriptions.Subscribe | dist/client.js:54-102 | afterwards the feed is held, the old list is a prefix of the new one, and at most one entry was added; `SubscribeAppendsOnce` gives the rest |
| Subscriptions.Unsubscribe | dist/client.js:103-129 | without the entry nothing changes; otherwise the list is one shorter and one unsubscribe job, carrying the captured entry's request for the same key, is appended to the queue |
| Subscriptions.Send | dist/client.js:84-97 | the queue is untouched; without a socket nothing happens; otherwise the frame is logged as sent, and only a failed send publishes an error and changes the list or timers |
| Subscriptions.Acknowledge | dist/client.js:75-83 | a success or a pong changes nothing; a refused subscribe arms one re-subscription; a refused unsubscribe appends the captured entry; the queue is untouched |
| Subscriptions.Resubscribe | dist/client.js:80-83 | publishes `retry-subscription`; afterwards the retried feed (trades without `forCandle`) is held and the old list is a prefix of the new one |
| Subscriptions.SubscribeAppendsOnce | dist/client.js:54-102 | subscribing is idempotent; a new subscription appends exactly its own entry and queues at most one subscribe job, and queues it exactly when the socket is open and ready |
| Subscriptions.SubscribeLeavesOneRetry | dist/client.js:59-60 | after a new subscription at most one `sub()` retry is pending under its key |
| Subscriptions.SubscribeRollbackRestores | dist/client.js:151-173 | a refused or timed-out subscribe, and a failed send of it, restore the list from before the subscribe call and arm one re-subscription |
| Subscriptions.UnsubscribeRollbackRestores | dist/client.js:179-205 | a refused or timed-out unsubscribe, and a failed send of it, put back the captured entry (with its `forCandle` flag): the same entries as before |
| Subscriptions.TradesRetryDropsForCandle | dist/client.js:156-159 | a failed `forCandle` trades subscription comes back after the retry as a plain trades entry |
| Subscriptions.CandleLookupUsesRawSymbol | dist/client.js:206-218 | the candle is looked up under the symbol as given but stored formatted: without '-' a second call changes nothing; with '-' every call adds another candle and launches another emulator |
| Subscriptions.RemoveCandleKeepsFeeds | dist/client.js:379-388 | the intended removal: taking the candle entry out by its own key leaves every ticker and trades entry, in order |
| Subscriptions.UnsubscribeCandleThrows | dist/client.js:219-225 | `unsubscribeCandle` throws a TypeError, changing nothing, exactly when the formatted candle is held and either the lookup under the symbol as given misses (which needs a '-' in it) or the candle's emulator is still launching, so `reset()` finds no `unSubFn` |
| Subscriptions.UnsubscribeCandleFeeds | dist/client.js:219-231 | `unsubscribeCandle` takes out the entry at the candle's position among the candles (whatever entry sits at that position of the full list) and at most the ticker entry on the formatted symbol, the latter only when exactly one candle on it is left and the socket is open |
| Subscriptions.SubscribeCandleOnEmpty | dist/client.js:206-218 | on an empty client `subscribeCandle` builds the `forCandle` trades feed followed by the candle |
| Subscriptions.RemoveCandleAfterFeed | dist/client.js:379-388 | on that list the as-written removal deletes the trades feed and keeps the candle |
| Subscriptions.UnsubscribeCandleOnFeedAndCandle | dist/client.js:219-231 | on that list, while the candle's emulator is still launching, `unsubscribeCandle` throws at `reset()` and changes nothing; once it has launched, it leaves just the candle, queues no unsubscribe job, and throws exactly when the socket is closed |
| Subscriptions.UnsubscribeCandleAfterSubscribe | dist/client.js:206-231 | `subscribeCandle` then `unsubscribeCandle` on an empty client: in the same turn the new emulator is still launching, so the unsubscribe throws and both entries stay; once its launch has finished, the unsubscribe leaves the candle subscribed, drops its trades feed and sends no unsubscribe |
| Subscriptions.Timestamps | dist/client.js:291 | the last-seen time of each cached ticker, for exactly the cached markets |
| Subscriptions.StaleFeeds | dist/client.js:290-302 | the pairs picked by the staleness filter: in list order, a symbol is picked exactly when it has a feed entry and nothing was seen on it within 6 minutes |
| Subscriptions.CandleTopics | dist/client.js:325-330 | one `reconnect-candle` publication per candle entry on the pair, in order |
| Subscriptions.HasFeed | dist/client.js:275-284 | `hasTickerSubscription` and `hasTradesSubscription` are membership of the ticker entry, or of the trades entry with either flag |
| Subscriptions.RefreshTickerKeepsEntries | dist/client.js:303-306 | re-subscribing a ticker pair with one entry keeps the same entries, queues one unsubscribe job and at most one subscribe job |
| Subscriptions.RefreshTickersKeepsEntries | dist/client.js:290-307 | with at most one ticker entry per symbol, the ticker sweep keeps exactly the same entries |
| Subscriptions.RefreshTradeKeepsEntries | dist/client.js:321-324 | re-subscribing a trades pair puts back the same entry with its `forCandle` flag |
| Subscriptions.RefreshTradesKeepsEntries | dist/client.js:308-332 | with at most one trades entry per symbol, the trades sweep keeps exactly the same entries, flags included |
| Subscriptions.TickersOnly | src/client.ts:356-360 | the ticker entries of a list, in order |
| Subscriptions.ReplayTickersRestoresTickers | src/client.ts:353-360 | replaying into the emptied list rebuilds exactly the ticker entries, in order, when no ticker symbol was listed twice |
| Subscriptions.ReplayRestoresEntries | dist/client.js:404-417 | the intended replay, in which no reset throws: for a `Replayable` list (symbols without '-' on the candles, each candle with its `forCandle` feed, each `forCandle` feed with a candle, no plain trades feed on a candle's symbol) the replay rebuilds the same entries, candles with new emulators |
| Subscriptions.RetriedCandleFeedList | dist/client.js:151-160 | a refused `forCandle` trades feed is removed, re-armed, and retried plain, leaving `[candle, plain trades]`: a list the client reaches that is not `Replayable` |
| Subscriptions.ReplayFlipsRetriedFeed | dist/client.js:404-417 | replaying `[candle, plain trades]` rebuilds `[forCandle trades, candle]`: the plain entry comes back flagged |
| Subscriptions.FirstPending | dist/client.js:413-415 | the position of the first candle entry whose emulator has not finished launching, or the length when there is none |
| Subscriptions.ReplayAsWrittenStopsAtPending | dist/client.js:404-417 | the replay as written runs the intended replay over the whole list and returns when no candle's emulator is still launching; otherwise it throws a TypeError at the first such candle, keeping exactly what the entries before it rebuilt |
| Subscriptions.ReplayAsWrittenHalted | dist/client.js:404-417 | once the replay has thrown, the later entries change nothing |
| Subscriptions.FirstPendingPrefix | dist/client.js:404-417 | a candle still launching in a prefix is the first one of the whole list too |
| Subscriptions.ReplayAsWrittenRestoresEntries | dist/client.js:404-417 | with every candle's emulator launched, the replay as written returns and rebuilds the same entries of a `Replayable` list |
| Subscriptions.ReplayLosesPendingCandle | dist/client.js:404-417 | `[forCandle trades, candle]` with the emulator still launching: the replay as written throws and leaves the emptied list empty, while the intended replay rebuilds both entries |
| TickerClient.RestartKeepsTickersOnly | src/client.ts:338-361 | restart leaves the list alone unless the socket is open and ready; when not ready it re-arms itself; when ready it keeps exactly the ticker entries and drops the candles |
| TickerClient.Restart | src/client.ts:338-361 | a closed socket changes nothing; a socket not ready keeps the list and queue and re-arms the restart timer; `RestartKeepsTickersOnly` gives the ready case |
| TickerClient.Client.GetSubscriptionNumber | src/client.ts:227-229 | the number of entries in the list |
| TickerClient.Client.constructor | src/client.ts:43-51 | no subscriptions, queue, timers or socket; not asking to close; no pong time |
| TickerClient.Client.ReceivedPongRecently | src/client.ts:235-247 | false without a pong time or with time 0; otherwise true exactly while connecting or while the last pong is less than 30 s old |
| TickerClient.Client.AddSubscription | src/client.ts:293-302 | the ledger becomes `Add`: the entry is appended and the change notified |
| TickerClient.Client.RemoveSubscription | src/client.ts:304-315 | the ledger becomes `Remove`: the first matching entry goes, with a notification, or nothing happens |
| TickerClient.Client.Sub | src/client.ts:85-142 | not open: retry in 2 s; open but not ready: publish `socket-not-ready` and retry in 5 s; otherwise queue the subscribe job |
| TickerClient.Client.SubscribeFeed | src/client.ts:73-145 | the ledger becomes `Subscribe` of the old one, which the subscribe lemmas describe |
| TickerClient.Client.UnsubscribeFeed | src/client.ts:147-182 | throws unless the socket is open and then changes nothing; otherwise `Unsubscribe` |
| TickerClient.Client.SubscribeTicker | src/client.ts:73-145 | `subscribeTicker(symbol)` is `Subscribe` with the ticker request |
| TickerClient.Client.UnsubscribeTicker | src/client.ts:147-182 | throws unless open; otherwise the first ticker entry goes and its unsubscribe job is queued |
| TickerClient.Client.SubscribeCandle | src/client.ts:184-200 | an interval outside the list throws and changes nothing; otherwise `SubscribeCandle` with the ticker as the feed |
| TickerClient.Client.CloseSocket | src/client.ts:208 | `ws.close()` is logged and the socket is at least closing |
| TickerClient.Client.CloseConnection | src/client.ts:202-209 | throws while subscriptions remain, changing nothing; otherwise marks the close as asked for, then throws without a socket or closes it |
| TickerClient.Client.ForceCloseConnection | src/client.ts:211-217 | closes exactly when the socket is open; otherwise nothing |
| TickerClient.Client.RestartPreviousSubscriptions | src/client.ts:338-361 | the ledger becomes `Restart` of the old one, which `RestartKeepsTickersOnly` describes |
| TickerClient.Client.Resumed | src/client.ts:64-70 | records the pong time t and restarts only a non-empty list; with t non-zero, `ReceivedPongRecently(now)` then holds exactly while connecting or for now - t below 30 s |
| TickerClient.Client.Connect | src/client.ts:53-71 | resets the flags and clears the ticker cache; with an open socket it resumes at once, otherwise it creates a connecting socket and changes no subscription; while connecting with a non-zero clock the client counts as having a recent pong |
| TickerClient.Client.OnOpen | src/client.ts:435-439 | the socket is open and no longer connecting; a non-empty list is restarted on the ready socket; with a non-zero clock t, `ReceivedPongRecently(now)` holds exactly for now - t below 30 s |
| TickerClient.Client.OnClose | src/client.ts:420-429 | the queue is dropped and the socket forgotten; a reconnect is scheduled exactly when the close was not asked for |
| TickerClient.Client.SendPing | src/client.ts:369-385 | throws unless open; otherwise registers a `pong` wait with its timer and sends a ping |
| TickerClient.Client.Resume | src/client.ts:105-117 | a fired wait callback: `Acknowledge` on the ledger; a successful ticker unsubscribe drops the cache entry; a successful pong at a non-zero time t records it, after which `ReceivedPongRecently(now)` holds exactly while connecting or for now - t below 30 s |
| TickerClient.Client.OnMessage | src/client.ts:416-418 | a frame resolves a wait exactly when its key is pending, and then the callback runs with true; otherwise the ledger is unchanged |
| TickerClient.Client.RunNextJob | src/client.ts:104-141 | the oldest job registers its wait and timer and is sent; a failed send rolls back as the send callback does |
| TickerClient.Client.RetryFired | src/client.ts:87 | a `sub()` retry runs the closure again without re-adding the entry |
| TickerClient.Client.ResubscribeFired | src/client.ts:111-117 | publishes `retry-subscription`, then subscribes again |
| TickerClient.Client.RestartFired | src/client.ts:348 | the deferred restart runs `Restart` |
| TickerClient.Client.ReconnectFired | src/client.ts:396-403 | publishes `reconnect`, then connects: a closed client gets a new connecting socket with its list untouched |
| TickerClient.Client.WaitTimedOut | src/event-handler.ts:23-32 | as written: when any wait is pending under the timer's key it is deleted and the timer's own callback runs with false (`Acknowledge`), even when the pending wait is a newer one; otherwise only the timer goes |
| TickerClient.Client.ShouldReconnectTickers | src/client.ts:271-291 | throws when the socket is closed and some ticker is stale; otherwise every stale ticker pair is unsubscribed and subscribed again, in list order |
| TickerClient.Client.RefreshTickerPairs | src/client.ts:287-290 | the loop equals `RefreshTickers` over the stale pairs |
| TickerClient.Client.RefreshTickerPair | src/client.ts:288-289 | `unsubscribeTicker(pair)` then `subscribeTicker(pair)` |
| TickerClient.Client.ShouldReconnectDeadSockets | src/client.ts:249-257 | nothing on a closed socket; otherwise the ticker sweep |
| FeedClient.RestartRestoresEntries | dist/client.js:395-418 | restart leaves the list alone unless the socket is open and ready; when ready it throws a TypeError exactly when some candle's emulator is still launching, and with every emulator launched it rebuilds the same entries for a `Replayable` list (a retried candle feed leaves a list outside that shape, `ReplayFlipsRetriedFeed`) |
| FeedClient.RestartLosesFreshCandle | dist/client.js:395-418 | a client that subscribes a candle while connecting and opens before the emulator's fetch returns ends the restart with no entries and a TypeError |
| FeedClient.Restart | dist/client.js:395-418 | a closed socket changes nothing; a socket not ready keeps the list and queue and re-arms the restart timer, returning normally; `RestartRestoresEntries` gives the ready case |
| FeedClient.Client.GetSubscriptionNumber | dist/client.js:251-253 | the number of entries in the list |
| FeedClient.Client.constructor | dist/client.js:17-39 | no subscriptions, queue, timers or socket; not asking to close; no pong time |
| FeedClient.Client.ReceivedPongRecently | dist/client.js:257-266 | false without a pong time or with time 0; otherwise true exactly while connecting or while the last pong is less than 30 s old |
| FeedClient.Client.AddSubscription | dist/client.js:333-341 | `Add`: the entry is appended and the change notified |
| FeedClient.Client.RemoveSubscription | dist/client.js:342-349 | `Remove`: the first match goes, with a notification |
| FeedClient.Client.RemoveCandleSubscription | dist/client.js:379-388 | the ledger becomes `RemoveCandle`: the candle's index among the candles is spliced out of the whole list |
| FeedClient.Client.Sub | dist/client.js:138-176 | not open: retry in 2 s; not ready: publish `socket-not-ready` and retry in 5 s; otherwise queue the job |
| FeedClient.Client.SubscribeFeed | dist/client.js:130-178 | the ledger becomes `Subscribe` of the old one |
| FeedClient.Client.UnsubscribeFeed | dist/client.js:179-205 | throws unless open, changing nothing; otherwise `Unsubscribe`, which captures the entry with its flag |
| FeedClient.Client.SubscribeTicker | dist/client.js:54-102 | `Subscribe` with the ticker request |
| FeedClient.Client.UnsubscribeTicker | dist/client.js:103-129 | throws unless open; otherwise `Unsubscribe` of the ticker key |
| FeedClient.Client.SubscribeTrades | dist/client.js:130-178 | `Subscribe` with the trades request and its `forCandle` flag |
| FeedClient.Client.UnsubscribeTrades | dist/client.js:179-205 | throws unless open; otherwise `Unsubscribe` of the trades key |
| FeedClient.Client.SubscribeCandle | dist/client.js:206-218 | an interval outside the list throws; otherwise `SubscribeCandle` with the trades feed flagged `forCandle` |
| FeedClient.Client.StartLaunch | dist/client.js:214-215 | the new emulator takes the next handle and its launch is logged, not yet finished |
| FeedClient.Client.UnsubscribeCandle | dist/client.js:219-231 | the ledger and the exit are `UnsubscribeCandle` of the old ledger: a TypeError, changing nothing, while the candle's emulator is still launching; otherwise the candle is removed by the as-written splice |
| FeedClient.Client.LaunchFinished | dist/candle-emulator.js:19-27 | an emulator's launch finishes: its handle joins the launched ones and nothing else changes |
| FeedClient.Client.CloseSocket | dist/client.js:237 | `ws.close()` is logged and the socket is at least closing |
| FeedClient.Client.CloseConnection | dist/client.js:232-238 | throws while subscriptions remain; otherwise marks the close as asked for, then throws without a socket or closes it |
| FeedClient.Client.ForceCloseConnection | dist/client.js:239-244 | closes exactly when the socket is open |
| FeedClient.Client.RestartPreviousSubscriptions | dist/client.js:395-418 | the ledger and the exit become `Restart`: the loop stops at the first candle whose reset throws; `RestartRestoresEntries` describes the outcome |
| FeedClient.Client.ReplayEntry | dist/client.js:406-417 | one old entry: a ticker is subscribed again, a plain trades entry too, a candle feed is skipped; a candle whose emulator is still launching throws at its reset, changing nothing, and any other candle resets its emulator and is subscribed again |
| FeedClient.Client.Resumed | dist/client.js:48-52 | records the pong time t and restarts only a non-empty list, ending with the restart's exit; with t non-zero, `ReceivedPongRecently(now)` then holds exactly while connecting or for now - t below 30 s |
| FeedClient.Client.Connect | dist/client.js:40-53 | resets the flags and the cache; an open socket resumes at once (a throwing restart rejects `connect`), otherwise a connecting socket is created, no subscription changes and the call returns; while connecting with a non-zero clock the client counts as having a recent pong |
| FeedClient.Client.OnOpen | dist/client.js:472-475 | open and no longer connecting; a non-empty list is restarted, with the restart's exit; with a non-zero clock t, `ReceivedPongRecently(now)` holds exactly for now - t below 30 s |
| FeedClient.Client.OnClose | dist/client.js:460-468 | the queue is dropped and the socket forgotten; a reconnect is scheduled exactly when the close was not asked for |
| FeedClient.Client.SendPing | dist/client.js:424-435 | throws unless open; otherwise registers a `pong` wait with its timer and sends a ping |
| FeedClient.Client.Resume | dist/client.js:151-160 | a fired wait callback: `Acknowledge`; a successful ticker unsubscribe drops the cache entry; a successful pong at a non-zero time t makes `ReceivedPongRecently(now)` hold exactly while connecting or for now - t below 30 s |
| FeedClient.Client.OnMessage | dist/client.js:457-459 | a frame resolves a wait exactly when its key is pending; otherwise the ledger is unchanged |
| FeedClient.Client.RunNextJob | dist/client.js:150-175 | the oldest job registers its wait and timer and is sent; a failed send rolls back |
| FeedClient.Client.RetryFired | dist/client.js:140 | a `sub()` retry runs the closure again |
| FeedClient.Client.ResubscribeFired | dist/client.js:156-159 | publishes `retry-subscription` and subscribes again, a trades retry without `forCandle` |
| FeedClient.Client.RestartFired | dist/client.js:401 | the deferred restart runs `Restart`, ledger and exit |
| FeedClient.Client.ReconnectFired | dist/client.js:443-447 | publishes `reconnect`, then connects: a closed client gets a connecting socket and returns; an open one restarts a non-empty list with the restart's exit |
| FeedClient.Client.WaitTimedOut | dist/event-handler.js:17-25 | as written: any wait pending under the key is deleted and the timer's own callback runs with false, even when the pending wait is a newer one |
| FeedClient.Client.ShouldReconnectTickers | dist/client.js:290-307 | throws when closed with a stale ticker; otherwise `RefreshTickers` over the stale ticker pairs |
| FeedClient.Client.RefreshTickerPairs | dist/client.js:303-306 | the loop equals `RefreshTickers` |
| FeedClient.Client.RefreshTickerPair | dist/client.js:304-305 | unsubscribe then subscribe the ticker |
| FeedClient.Client.RefreshTradePair | dist/client.js:322-330 | the entry's `forCandle` is captured; the trades feed is unsubscribed and subscribed again with it; a candle feed announces each candle on the pair |
| FeedClient.Client.ShouldReconnectTrades | dist/client.js:308-332 | throws when closed with a stale pair; otherwise `RefreshTrades` over the stale trades pairs |
| FeedClient.Client.RefreshTradePairs | dist/client.js:321-331 | the loop equals `RefreshTrades` |
| FeedClient.Client.ShouldReconnectDeadSockets | dist/client.js:267-274 | nothing on a closed socket; otherwise the ticker sweep and then the trades sweep over the list the first one left |
| Pool.SumCountsAppend | src/index.ts:119-126 | the subscription count over both lists is the sum of the counts of each list |
| Pool.FirstHolding | src/index.ts:41 | `find`: the first client holding the key (none before it does), or the length exactly when none holds it |
| Pool.CloseExit | src/client.ts:202-209 | a client's close succeeds only with no subscription and a socket; with subscriptions it reports their number |
| Pool.FirstCloseFailure | src/index.ts:100-103 | the first client whose close throws; every client before it closes |
| Pool.SweepDoesOneThing | src/index.ts:168-176 | a client without a recent pong is only closed (list, queue and timers kept); a client with a recent pong on a closed socket is untouched |
| Pool.Sweep | src/index.ts:168-176 | a closed client is untouched; without a recent pong the list, queue and timers are kept; otherwise the ticker then the trades staleness sweep |
| Pool.SubscribeOnNewClient | src/index.ts:142-149 | a new, still connecting client records its first feed and arms a 2 s retry |
| Pool.CandleAddsAtMostTwo | dist/client.js:206-218 | a candle adds at most two entries to its client, and exactly two when the client held neither the candle nor its trades feed |
| Pool.SweepClient | src/index.ts:169-175 | one client: force-close without a recent pong, otherwise the staleness check |
| Pool.SweepEach | src/index.ts:168-176 | every client is swept once, on the state it had before the sweep |
| Pool.CloseEach | src/index.ts:100-103 | clients close in order up to the first that throws; its error is returned; that client keeps its state and later ones are untouched |
| Pool.FtxWS.constructor | src/index.ts:11-22 | both lists start empty |
| Pool.FtxWS.IsSocketOpen | src/index.ts:105-110 | true exactly when every client of both lists is open |
| Pool.FtxWS.IsSocketConnecting | src/index.ts:112-117 | true exactly when some client of either list is connecting |
| Pool.FtxWS.GetSubscriptionNumber | src/index.ts:119-126 | the `reduce` over both lists is the plain clients' total plus the candle clients' total |
| Pool.FtxWS.GetLastClient | src/index.ts:137-153 | the last plain client while it holds fewer than 98 subscriptions, otherwise a new connecting client appended; either way the client is below 98 |
| Pool.FtxWS.OpenClient | src/index.ts:141-150 | a fresh client, empty and connecting, is appended to the plain list |
| Pool.FtxWS.GetLastCandleClient | src/index.ts:137-153 | the same choice over the candle list |
| Pool.FtxWS.SubscribeFeed | src/index.ts:24-34 | the shared body of `subscribeTicker` and `subscribeTrades`: nothing when some plain client holds the feed; otherwise the client picked takes it, stays at most 98, and no other client changes |
| Pool.FtxWS.AddFeed | src/index.ts:33 | when no plain client holds the feed, the last client takes it: either the old last client, as `Subscribe` says, or a new one whose ledger is its first feed |
| Pool.FtxWS.FeedLastClient | src/index.ts:139-152 | the last plain client, below 98, subscribes the feed |
| Pool.FtxWS.FeedNewClient | src/index.ts:141-149 | a new client is appended, holding only the feed with its pending retry; the other clients are unchanged |
| Pool.FtxWS.FeedOpened | src/index.ts:141-149 | a client just opened takes its first feed: its ledger is `FirstFeedOfNewClient` and it holds the feed |
| Pool.FtxWS.SubscribeOn | src/index.ts:33 | a plain client subscribes a feed: its ledger is `Subscribe` of the old one, it holds the feed, and its old list is a prefix of the new one, at most one longer |
| Pool.FtxWS.SubscribeTicker | src/index.ts:24-34 | afterwards some plain client holds the ticker; the list only grew, by fresh clients, and no client lost a subscription |
| Pool.FtxWS.SubscribeTrades | dist/index.js:41-47 | the same for a trades feed, subscribed without `forCandle` |
| Pool.FtxWS.SubscribeCandle | src/index.ts:76-86 | nothing when a candle client holds the candle; otherwise the client picked subscribes it (or refuses the interval) and ends at most one above 98; a valid candle without '-' is then held |
| Pool.FtxWS.AddCandle | src/index.ts:85 | the last candle client, or a new one, takes the candle; every other candle client is unchanged |
| Pool.FtxWS.CandleOn | dist/client.js:206-218 | a candle client subscribes a candle and grows by at most two entries |
| Pool.FtxWS.UnsubscribeTicker | src/index.ts:40-48 | the first plain client holding the ticker unsubscribes it (throwing when closed); with no holder nothing changes |
| Pool.FtxWS.UnsubscribeTrades | src/index.ts:66-74 | the same delegation for a trades feed |
| Pool.FtxWS.UnsubscribeCandle | src/index.ts:88-98 | the first candle client holding the candle runs `UnsubscribeCandle`; every other client is unchanged |
| Pool.FtxWS.SubscribeTickers | src/index.ts:36-38 | afterwards every listed symbol is held by some plain client |
| Pool.FtxWS.SubscribeNextTicker | src/index.ts:37 | one more symbol is held and the earlier ones stay held |
| Pool.FtxWS.CloseConnection | src/index.ts:100-103 | the close cascade over the plain list and then the candle list, stopping at the first client that throws |
| Pool.FtxWS.CheckDisconnectedClients | src/index.ts:165-177 | every client of both lists gets exactly the sweep `Sweep` gives for its own state |

## Left out

- The websocket transport, HTTP candle fetch, JSON parsing and emitters are not run. Frames are `MessageData` values, the fetch result is a parameter of `Launch`, and emits are appended to logs.
- The clock, the socket's `readyState` changes made by the `ws` library, and a send's error are parameters or explicit event methods.
- Timers are an ordered list of pending one-shots, and the environment picks which one fires. The ping interval timer is not modelled; `SendPing` is the tick.
- The 250 ms job timeout of the send queue is not modelled: a queued job always runs.
- The callback of `ws.send` is run in the same step as the send (`RunNextJob`).
- The `launch` of an emulator is an `EmulatorLaunched` effect on the client. Its completion, when the awaited fetch returns, is the environment event `LaunchFinished`, recorded as the ledger's `launched` handles. The link between a candle entry and its emulator object is the handle only. The TypeScript client never resets an emulator, so its ledger records no finished launch.
- `connect` clears retry timers with `clearInterval(keySub)` on the key string. That is a no-op, and the model does not clear them.
- Calling `connect` on a client whose socket is already open re-runs only the resume part.
- `launchTimerDisconnected` restarts the 32 s timer each time a client is opened. The timer is modelled as the environment calling `CheckDisconnectedClients`.
- `emitSubscriptions`, `globalEmitSubscription` and `getSubscriptions` are modelled only as a `SubscriptionsChanged` effect.
- `unsubscribeTickers` of the pool is not modelled. It is `UnsubscribeTicker` over a list, the same shape as `SubscribeTickers`.
- `getLastTrades`, which `dist/client.js` calls, is not defined in `dist/event-handler.js`. The last trade time of each pair is the input map `lastTrades`, shared by all clients. As compiled, `shouldReconnectTrades` therefore throws a TypeError at `dist/client.js:309` on every open client with a recent pong, after its ticker sweep, and `checkDisconnectedClients` (`dist/index.js:107-116`) stops at the first such client. The model runs the trades sweep with that input instead.
- `src/index.ts` calls `subscribeTrades`, `unsubscribeTrades`, `unsubscribeCandle` and `hasTradesSubscription`, which exist only on the compiled client. The pool is therefore built over `FeedClient.Client`.
- The TypeScript client builds its emulator without an internal emitter, and the TypeScript correlator never publishes `trades-{symbol}`. The trade-driven emulator is modelled on its own, as if it were fed.
- Pool.FtxWS.UnsubscribeTicker: the exceptions a client throws are returned as an `Exit` value instead of unwinding the pool's call.
- Pool.FtxWS.UnsubscribeTrades: the same.
- Pool.FtxWS.UnsubscribeCandle: the same.
- Pool.FtxWS.CloseConnection: the same.
- Pool.FtxWS.AddFeed: the choice `getLastClient` makes is split into the `FeedLastClient` and `FeedNewClient` branches.
- FeedClient.Client.ShouldReconnectDeadSockets: it runs the two sweeps directly on the open socket instead of through `shouldReconnectTickers` and `shouldReconnectTrades`.
- FeedClient.Client.RefreshTradePair: a pair whose trades entry has gone (unreachable inside the sweep) is skipped, where the source would throw on the missing `tradesSub`.
- Correlation.NormalizeTicker: `Number.parseInt(ts.toString())` is modelled as truncation. The exponent notation JavaScript uses for very large or very small numbers is not modelled.
- ReplayRestoresEntries: proved only for `Replayable` lists, and about the intended replay in which no reset throws. A list holding a retried candle feed (`[candle, plain trades]`) is not `Replayable`; on it the replay rebuilds the entries with the trades flag flipped (`ReplayFlipsRetriedFeed`). The replay as written agrees only once every candle's emulator has launched (`ReplayAsWrittenRestoresEntries`); otherwise it throws at the first candle still launching and keeps only what the entries before it rebuilt (`ReplayAsWrittenStopsAtPending`, `ReplayLosesPendingCandle`).
- RestartRestoresEntries: the same restrictions. The same entries come back only for a `Replayable` list whose candles' emulators have all launched; a fresh candle client whose socket opens before the fetch returns ends with no entries (`RestartLosesFreshCandle`).
- Subscription timestamps and the `datetime`/`info` fields of a ticker are never read by the core and are dropped.

## Findings

| source | as written | input that shows it | evidently intended | confidence | as-written member | corrected member |
|---|---|---|---|---|---|---|
| src/event-handler.ts:23-32 | a wait's timer checks only that SOME resolver is pending under its key, then deletes it and fires its own callback | `waitForEvent("k")`, a reply on "k", `waitForEvent("k")` again, then the first timer: the first callback fires a second time (false) and the second never fires | a timer fires only while its own registration is pending | high, not executed | Correlation.DoubleFiringAsWritten | Correlation.FiresAtMostOnce |
| dist/client.js:379-388 | `removeCandleSubscription` finds the index in the candle-only list and splices it out of the full list | `[ticker BTC/USD, candle BTC/USD 1m]`: removing the candle deletes the ticker entry and keeps the candle | remove the matching candle entry itself | high, not executed | Subscriptions.RemoveCandleAsWrittenDropsTicker | Subscriptions.RemoveCandleKeepsFeeds |
| dist/client.js:413-415 | the replay empties the list, then calls `emulator.reset()` on each old candle; `reset` calls `unSubFn`, which `launch()` sets only after its awaited fetch, and `subscribeCandle` does not await the launch | `subscribeCandle("BTC/USD", "1m")` while the socket is connecting, then the socket opens before the fetch returns: the feed is skipped, the candle's reset throws, and the client is left with no subscriptions | a reset of an emulator still launching does nothing, so the replay rebuilds the list | medium, not executed | Subscriptions.ReplayLosesPendingCandle | Subscriptions.ReplayRestoresEntries |

Both builds share the correlator defect (`dist/event-handler.js:17-25` too). The handlers and clients follow the code as written: `Timeout` and `WaitTimedOut` run `Correlation.Expire`, and `unsubscribeCandle` removes the candle with `RemoveCandleAsWritten`, and the replay on restart is `ReplayAsWritten`, which throws at the reset of an emulator still launching. The corrected definitions, `Correlation.ExpireOwn`, removal by key (`RemoveFirst`) and the replay in which no reset throws (`Replay`), are kept beside them as the reference the intended properties are proved of. On the list `subscribeCandle` builds, `[forCandle trades, candle]`, an `unsubscribeCandle` in the same turn throws at `reset()` and keeps both entries; once the launch has finished, the as-written removal deletes the trades feed, keeps the candle and sends no unsubscribe (`UnsubscribeCandleAfterSubscribe`).

Other behaviour of the source, modelled as written:

- The first trade after launch publishes the initial candle, so five trades over two and a half buckets publish three candles, not two (`FiveTradeExample`).
- A failed `forCandle` trades subscription is retried as a plain one (`TradesRetryDropsForCandle`, `RetriedCandleFeedList`). A later replay turns it back into a candle feed (`ReplayFlipsRetriedFeed`).
- A candle symbol with '-' is looked up unformatted and stored formatted. Each call then adds another candle (`CandleLookupUsesRawSymbol`), and `unsubscribeCandle` on it throws (`UnsubscribeCandleThrows`).
- After the removal, `unsubscribeCandle` unsubscribes the ticker feed only when exactly one candle on the symbol remains. It never sends an unsubscribe for the trades feed the candle subscribed (`UnsubscribeCandleFeeds`).
- A candle client below 98 can reach 99 subscriptions, because a candle adds its trades feed too (`CandleAddsAtMostTwo`, `Pool.FtxWS.SubscribeCandle`).
