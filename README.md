# Satmix price relay, modelled in Dafny

This project models the real-time price relay of Satmix and the browser hook that subscribes to it.

- The relay (`crypto-server/server.js`) keeps one streaming connection to Binance's combined ticker feed. It caches the latest tick per tracked symbol and polls a USD→INR rate. Upstream updates reach its WebSocket subscribers through a throttle that sends at most one `price_update` snapshot per interval. Two other sends bypass the throttle: the rebroadcast after a successful forex poll, and the snapshot a new subscriber gets on joining.
- The hook (`app/src/hooks/useCryptoPrices.js`) keeps one socket to the relay. It replaces its price map on every accepted snapshot and reconnects after a close.

There are four files, one module each:

- `wire.dfy` (`Wire`) holds the static symbol table, the decoded upstream frames, the cached ticks and the outbound records. It also holds the pure helpers: `StreamId` (the text before `@`), `Find` (`SYMBOLS.find`), `DecodeFrame` (the drop-or-store decision of the `message` handler) and `CacheAsArray` (`getCacheAsArray`).
- `throttle.dfy` (`Throttle`) models the broadcast throttle as a value: a coalescing primitive with the events Mark (`scheduleBroadcast`) and Elapse (the timer fires). Lemmas over arbitrary event sequences count how many timers are armed, how many fire and how many flushes happen.
- `relay.dfy` (`Relay`) holds the class `RelayServer`. Its fields are the server's module-level state: `priceCache`, `lastUpdateTime`, `inrRate`, `inrRateLastUpdated`, the throttle's armed/pending flags, the reconnect timer, the upstream socket state and the subscriber list. Each callback is one event method. Ghost fields count the live timers, the created upstream sockets and every payload passed to `broadcast`. `Valid()` keeps these invariants:
  - every cache key is a tracked id;
  - the rate is never zero;
  - a pending signal always has an armed timer;
  - at most one timer of each kind is live;
  - a reconnect is pending only while the upstream is closed.
- `hook.dfy` (`PriceHook`) holds the map-building loop, its specification `PricesOf`, and the class `CryptoPricesHook` with the `onopen`/`onmessage`/`onclose`/`onerror` handlers, the timer and the effect cleanup.

Timers are armed booleans plus explicit fire events, not wall-clock time. Prices and the rate are `real`. `JSON.parse`, `JSON.stringify` and `parseFloat` are abstracted into the datatypes `Frame`, `Ticker`, `Inbound` and `ForexOutcome`. The clock is a `now` parameter of the methods that stamp a time. The outcome of a forex poll is a parameter.

Three behaviours of the code shape what the model promises:

- `data.rates.INR` is a truthiness test (crypto-server/server.js:127). Among numbers it rejects only 0 (and NaN), so a negative rate passes. The invariant proved is therefore `inrRate != 0`, not a positive rate.
- `parseFloat`'s result is stored unconditionally (crypto-server/server.js:262-266). A cached tick therefore always has all five numbers, and the `!= null` tests at crypto-server/server.js:214-216 never produce null for a cached symbol.
- `broadcast` only skips subscribers whose state is not OPEN (crypto-server/server.js:184); the `ws` library removes closed ones. That removal is modelled as the events `OnClientClosing` and `OnClientRemoved`.

## Model

| member | source | states |
|---|---|---|
| `Wire.StreamId` | crypto-server/server.js:252 | the result is a prefix of the stream name, contains no `@`, and is followed by `@` unless it is the whole name |
| `Wire.Find` | crypto-server/server.js:254 | returns the index of the first table entry with that id, or `None` exactly when no entry has it |
| `Wire.FindTracked` | crypto-server/server.js:38-46 | every tracked id is found at its own position (the ids in the table are distinct) |
| `Wire.SymbolsDistinct` | crypto-server/server.js:38-46 | the ids and display symbols of the table are pairwise distinct |
| `Wire.DecodeFrame` | crypto-server/server.js:249-267 | a tick is produced exactly when the frame parsed, has a non-empty `stream` and a `data`, and the id before `@` is tracked; that tick carries the table's metadata for that id and the frame's five numbers |
| `Wire.CacheAsArray` | crypto-server/server.js:197-219 | exactly one record per table entry, in table order; an absent symbol gives its table metadata with every market field null; a present symbol carries its tick in USD with `price_inr`, `high_24h_inr`, `low_24h_inr` equal to the USD value times the rate |
| `Wire.SnapshotFollowsTable` | crypto-server/server.js:198-212 | for any well-formed cache (the empty one included), record i carries exactly table entry i's id, name and symbol |
| `Wire.StoreKeepsWellFormed` | crypto-server/server.js:254-269 | storing a tick tagged with a tracked id keeps every cache key tracked, so unknown ids never enter the cache |
| `Wire.LaterFrameShadows` | crypto-server/server.js:249-269 | two accepted frames on the same stream store ticks with the same id, so the snapshot after both stores equals the snapshot after only the second, and that symbol's record carries the second frame's numbers |
| `Relay.SecondFrameShadowsFirst` | crypto-server/server.js:245-273 | after two accepted frames on one stream reach a fresh relay, one throttle timer is armed with the signal pending, and the snapshot its firing sends holds only the second frame's tick, at the fallback rate, stamped with the second arrival time |
| `Throttle.Apply` | crypto-server/server.js:66-79 | the case-by-case definition of one throttle step: Mark sets pending and arms a timer only if none is armed; Elapse disarms and flushes exactly when a signal was pending; Elapse with no timer does nothing. What the throttle promises is proved about it in `RunAccounting`, `Coalesce` and `MarkIsFlushed` |
| `Throttle.RunAccounting` | crypto-server/server.js:66-79 | over any event sequence: pending implies armed; the timers armed plus the one armed at the start equal the timers fired plus the one still armed; there are never more flushes than firings |
| `Throttle.MarksWhileArmed` | crypto-server/server.js:66-68 | while a timer is armed, any number of marks arm no timer and only set pending |
| `Throttle.Coalesce` | crypto-server/server.js:66-79 | any burst of one or more marks from idle, then the expiry, arms exactly one timer, fires it once, flushes once and returns to idle |
| `Throttle.BurstThenElapse` | crypto-server/server.js:68-79 | from armed-and-pending, any number of marks then the expiry fires once and flushes once |
| `Throttle.MarkIsFlushed` | crypto-server/server.js:66-79 | whatever came before, a mark followed by the expiry adds exactly one flush (no signal is lost) |
| `Relay.AcceptedRate` | crypto-server/server.js:121-129 | the case-by-case acceptance rule: an exception or a not-ok response installs nothing, nor does a missing or zero `rates.INR`; an installed rate is the body's non-zero `rates.INR`. The promise built on it, that the rate is never zero, is the `Valid()` invariant kept by `FetchForexRate` |
| `Relay.Deliver` | crypto-server/server.js:183-188 | the reference definition of one broadcast, element by element: each subscriber keeps its open flag; an open subscriber's queue gains exactly the message; a closed one's is unchanged. The loop of `Broadcast` is proved equal to it, and `DeliverQueuesOnePerOpen` ties it to the returned count |
| `Relay.DeliverQueuesOnePerOpen` | crypto-server/server.js:181-190 | the count `broadcast` returns equals the number of payloads it queues in total |
| `Relay.CountOpenBounded` | crypto-server/server.js:183-190 | the count is at most the number of subscribers, and equals it exactly when all are open |
| `Relay.RelayServer.constructor` | crypto-server/server.js:53-64 | empty cache, no timestamps, the fallback rate 86, no timer armed, no upstream socket, no subscribers |
| `Relay.RelayServer.ScheduleBroadcast` | crypto-server/server.js:66-69 | always sets pending; the timer is armed afterwards; a new timer is created only if none was armed, so exactly one is live |
| `Relay.RelayServer.FireBroadcastTimer` | crypto-server/server.js:70-79 | disarms; if pending, clears it and broadcasts the current snapshot exactly once (one log entry, open subscribers served); otherwise sends nothing; cache and rate unchanged |
| `Relay.RelayServer.Broadcast` | crypto-server/server.js:179-191 | sends the message to exactly the OPEN subscribers and returns their number; changes no other field |
| `Relay.RelayServer.ConnectToBinance` | crypto-server/server.js:229-233 | a new upstream socket is created and starts connecting |
| `Relay.RelayServer.OnUpstreamOpen` | crypto-server/server.js:235-243 | the upstream is connected and no reconnect timer remains pending |
| `Relay.RelayServer.StoreTick` | crypto-server/server.js:269-270 | the tick replaces only its own id's entry, the update time is stamped, and every cache key stays tracked |
| `Relay.RelayServer.OnUpstreamMessage` | crypto-server/server.js:245-278 | a dropped frame changes neither cache, timestamp nor throttle; an accepted one overwrites only its id's cache entry, stamps the update time and schedules a broadcast |
| `Relay.RelayServer.ScheduleReconnect` | crypto-server/server.js:294-299 | a no-op while a reconnect timer is armed; afterwards exactly one is pending |
| `Relay.RelayServer.OnUpstreamClose` | crypto-server/server.js:280-283 | the upstream is closed and exactly one reconnect timer is pending, an already pending one being kept |
| `Relay.RelayServer.OnUpstreamError` | crypto-server/server.js:285-287 | changes no state; in particular it schedules no reconnect |
| `Relay.RelayServer.FireReconnectTimer` | crypto-server/server.js:300-303 | disarms the reconnect timer and opens one new upstream socket |
| `Relay.RelayServer.FetchForexRate` | crypto-server/server.js:116-148 | on any failure, rate, its timestamp and subscribers are unchanged; on success, the rate is replaced and stamped, and a snapshot with the new rate is sent bypassing the throttle exactly when the cache is non-empty |
| `Relay.RelayServer.OnConnection` | crypto-server/server.js:154-165 | the new subscriber is appended as open and gets the snapshot exactly when the cache is non-empty |
| `Relay.RelayServer.OnClientClosing` | crypto-server/server.js:167-173 | only that subscriber's state leaves OPEN |
| `Relay.RelayServer.OnClientRemoved` | crypto-server/server.js:167-173 | only that subscriber leaves the list; the others keep their order |
| `PriceHook.PricesOfKeys` | app/src/hooks/useCryptoPrices.js:33-36 | the key set of the built map is exactly the set of symbols in `data` |
| `PriceHook.PricesOfLastWins` | app/src/hooks/useCryptoPrices.js:34-36 | among records sharing a symbol, the map holds the last one |
| `PriceHook.BuildPrices` | app/src/hooks/useCryptoPrices.js:33-37 | the loop builds a fresh map from `data` alone: keys are the symbols of `data`, each bound to its last record |
| `PriceHook.Accept` | app/src/hooks/useCryptoPrices.js:31-32 | the case-by-case acceptance test: a message is accepted exactly when it parsed, its type is `price_update` and its `data` is an array. The promise built on it is `SnapshotFillsPrices` (every relay snapshot is accepted) with `OnMessage` |
| `PriceHook.SnapshotFillsPrices` | app/src/hooks/useCryptoPrices.js:32-37 | every relay snapshot is accepted, and the resulting map has one key per tracked symbol, bound to the relay's record for it |
| `PriceHook.CryptoPricesHook.constructor` | app/src/hooks/useCryptoPrices.js:11-19 | mounting starts disconnected with an empty map and one connecting socket, no timer |
| `PriceHook.CryptoPricesHook.Connect` | app/src/hooks/useCryptoPrices.js:17-19 | a new socket with its handlers, connecting |
| `PriceHook.CryptoPricesHook.OnOpen` | app/src/hooks/useCryptoPrices.js:21-27 | connected, and any reconnect timer is cleared and its reference nulled |
| `PriceHook.CryptoPricesHook.OnMessage` | app/src/hooks/useCryptoPrices.js:29-42 | an accepted message replaces the whole map by the one built from its `data`; anything else leaves the map unchanged |
| `PriceHook.CryptoPricesHook.OnClose` | app/src/hooks/useCryptoPrices.js:44-53 | disconnected; a reconnect timer is armed only if the reference is null, so at most one is pending |
| `PriceHook.CryptoPricesHook.OnError` | app/src/hooks/useCryptoPrices.js:55-57 | only moves an open or connecting socket to closing; no other state changes |
| `PriceHook.CryptoPricesHook.TimerFire` | app/src/hooks/useCryptoPrices.js:48-51 | nulls the timer reference and opens one new socket |
| `PriceHook.CryptoPricesHook.Cleanup` | app/src/hooks/useCryptoPrices.js:62-70 | unmounted, the current socket closing and the pending timer cancelled; the handlers stay installed |
| `PriceHook.CryptoPricesHook.CorrectedCleanup` | app/src/hooks/useCryptoPrices.js:62-70 | the corrected cleanup: it also removes the socket's handlers and nulls the timer reference, leaving the hook quiescent; every event handler preserves quiescence |
| `PriceHook.CryptoPricesHook.Rerun` | app/src/hooks/useCryptoPrices.js:16-71 | a re-run of the effect on the same instance: the old cleanup, then a new connecting socket, with the timer reference kept as the cleanup left it |
| `PriceHook.CryptoPricesHook.RerunCorrected` | app/src/hooks/useCryptoPrices.js:16-71 | the same re-run with the corrected cleanup: a new connecting socket and a null timer reference |
| `PriceHook.UnmountedHookReconnects` | app/src/hooks/useCryptoPrices.js:44-70 | as written: mount, open, unmount, then the close that cleanup caused and its timer leave a new socket connecting after unmount |
| `PriceHook.CorrectedHookStaysClosed` | app/src/hooks/useCryptoPrices.js:44-70 | with the corrected cleanup the same close arms no reconnect timer |
| `PriceHook.StaleRefBlocksReconnect` | app/src/hooks/useCryptoPrices.js:44-70 | as written: a close arms a reconnect, the effect re-runs before it fires, and the new socket then closes before opening; the hook stays mounted and disconnected with no reconnect pending |
| `PriceHook.CorrectedRerunReconnects` | app/src/hooks/useCryptoPrices.js:44-70 | with the corrected cleanup the same trace leaves a reconnect pending |

## Findings

| source | as written | input that shows it | evidently intended | confidence | as-written member | corrected member |
|---|---|---|---|---|---|---|
| app/src/hooks/useCryptoPrices.js:62-70 | the cleanup closes the socket but leaves its `onclose` handler installed; when the socket was open, `reconnectTimer.current` is null, so the resulting close arms a 3-second reconnect, and `connect()` then opens a new socket for an unmounted component (and nothing ever closes it) | mount, `open`, unmount, the `close` event, the timer's expiry | after unmount no reconnect is scheduled and no new socket is opened (the provider expects a single shared connection) | not executed | `PriceHook.CryptoPricesHook.Cleanup`, shown by `PriceHook.UnmountedHookReconnects` | `PriceHook.CryptoPricesHook.CorrectedCleanup`, shown by `PriceHook.CorrectedHookStaysClosed` |
| app/src/hooks/useCryptoPrices.js:67-69 | the cleanup cancels a pending reconnect timer but leaves `reconnectTimer.current` non-null; React keeps that ref when the effect re-runs for a new `wsUrl`, so if the new socket closes before it opens, the guard at :47 arms no reconnect, and the hook stays disconnected | a close (timer armed), a change of `wsUrl` before the timer fires, then the new socket's `close` without an `open` | cancelling the timer also nulls the reference, so a later close schedules a reconnect | not executed | `PriceHook.CryptoPricesHook.Rerun`, shown by `PriceHook.StaleRefBlocksReconnect` | `PriceHook.CryptoPricesHook.RerunCorrected`, shown by `PriceHook.CorrectedRerunReconnects` |

## Left out

- Express routes, the `/api/health` endpoint and serving `client.html` (crypto-server/server.js:93-112): HTTP plumbing with no state change.
- Startup sequencing in `server.listen`: the awaited first forex fetch, `setInterval` for the poll and the initial `connectToBinance`. Each poll is one `FetchForexRate` event, and the startup connect is `ConnectToBinance`.
- The SIGINT shutdown handler: process and I/O lifecycle.
- Upstream `ping`/`pong`: keep-alive handled by the socket library with no model state.
- Console logging, including the BTC summary line at crypto-server/server.js:81-86.
- Timer delays (1000 ms throttle, 5000 ms server reconnect, 3000 ms hook reconnect, 5-minute poll) and wall-clock time. Timers fire as explicit events, so the time-window bound on broadcasts appears as counts (one flush per firing at most, one timer at a time), not in milliseconds.
- IEEE floating point: prices and the rate are `real`, so NaN and rounding are not modelled. A NaN from `parseFloat` is stored by the code; in the model every parsed field is a number.
- JSON text: serialization, parsing and the key order of the spread record (`...cached` puts the INR fields last) are abstracted into datatypes. A parse error, or a parsed value that is not an object, is `Frame.Unparsable` or `Inbound.Malformed`.
- Asynchrony inside `fetchForexRate`: the poll is modelled as one atomic update when it completes. Nothing in the handler reads state before its awaits.
- React rendering and state-setter batching. A re-run of the effect when `wsUrl` changes is `Rerun` on the same instance, because React keeps the state and the refs.
- The hook tracks only the current socket (`wsRef.current`). A socket that a re-run's cleanup closed keeps its handlers, and its late `onclose` still clears `isConnected` and may arm a reconnect through the shared ref. The model does not track that old socket separately, so those late events are not modelled.
- Relay.AcceptedRate: a truthy `rates.INR` that is not a number (a non-empty string, say) is installed by the code and then broadcast as the rate. `ForexOutcome` carries only numbers or their absence, so the model cannot express that case; the forex API returns the rate as a JSON number.
- PriceHook.Accept: the elements of `data` are assumed to be objects with a string `symbol`. A `null` element makes `coin.symbol` throw, and the catch leaves the map unchanged; an element without `symbol` is stored under the key `undefined`. Neither case is modelled, because the relay only ever sends the records of `getCacheAsArray`, which all have a symbol.
- The socket library's own transitions (the ready state of sockets and removal of closed subscribers) are modelled only as far as the handlers observe them: `OnClientClosing` and `OnClientRemoved` on the server, the `socket` field in the hook.
- All UI sections, components, formatting helpers, random generators and the mocked trading and portfolio arithmetic.
