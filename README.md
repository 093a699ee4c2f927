# rate-limiter, modelled in Dafny

A model of the Express rate-limiting middleware `initRateLimit` and the two services it is
built on:

- `NodeCache` (module `NodeCache`, file `node_cache.dfy`): the in-process counter store, a
  wrapper around a node-cache instance with the Redis-style `set`, `get`, `ttl`, `incr` and
  `expire`. The cache is a table from key to value and expiry time in milliseconds (0 for
  none); an entry whose expiry is not later than the current time reads as absent. Every
  operation receives the current time `now` as a parameter. Pure functions (`Lookup`,
  `TtlCode`, `Incremented`, `Retimed`) state what each operation returns and leaves behind;
  the class `Store` holds the table as a field and its methods are proved against those
  functions.
- `DatabaseConnection` (module `ConnectDatabase`, file `connect_database.dfy`): the choice of
  backend from the database configuration (`SelectBackend`), the constructor and the errors it
  throws, the `onError` / `onReconnect` hooks, `checkReadyState` with its `handleReady` and
  `handleError` listeners, `getDbConnection` and `disconnect`. A Redis client is an opaque
  handle: its connection `status` and the multiset of listeners registered on it.
- `initRateLimit` and its middleware (module `RateLimit`, file `rate_limit.dfy`): the options
  with their defaults, the key `appName` or `appName-ip` (with the first hop of the
  originating-IP header behind a proxy), the increment / ttl / conditional expire protocol,
  the three `x-ratelimit-*` headers and the 429 answer (section 4 of RFC 6585).

`wrappers.dfy` holds `Option`, `Result` and `Outcome`.

The main results are the fixed-window behaviour of the in-process store: increments inside a
window count up by one and never move the window end (`NodeCache.FixedWindow`), and the
whole middleware over the in-process store, for requests up to 500 ms before the window
closes, admits requests 1 to `maxHits` of a fresh window and answers 429 to every later one,
with the remaining count and a reset value between 1 and the window length in the headers
(`RateLimit.FreshWindow`, `RateLimit.RequestsInWindow`). In the last 500 ms of a window,
`incr` rounds the remaining time to 0 seconds: it still counts the request but drops the key,
so the next request, though inside the same window, is counted as hit 1 and admitted
(`NodeCache.ClosingWindowDrops`).

`expire` re-times a key unconditionally, even one that already has an expiry. The middleware
calls it whenever the ttl read after `incr` is -1. When it finds no key, the reset header is
-1 and the ttl is not read again.

## Model

| member | source | states |
|---|---|---|
| NodeCache.RoundSeconds | service/nodeCache.js:24 | `Math.round(ms / 1000)`: the result in seconds is within half a second of `ms` |
| NodeCache.Lookup | service/nodeCache.js:37-39 | `get` returns a value exactly when the key is live, and then the stored value |
| NodeCache.TtlCode | service/nodeCache.js:20-30 | `ttl` is -2 exactly for an absent or expired key, -1 exactly for a live key without expiry, non-negative exactly for a live key with an expiry, and then within half a second of the remaining time |
| NodeCache.Incremented | service/nodeCache.js:41-60 | `incr` leaves other keys alone; an absent key restarts at 1 without expiry; a live count goes up by one, and a live value without a truthy count restarts at 1; with a window end the key is kept exactly while the rounded remaining seconds are positive, carrying that end and a cache expiry within 500 ms of it |
| NodeCache.Retimed | service/nodeCache.js:67-69 | `expire` reports whether the key is live; it then keeps the value and sets the ttl (0 = none, reads back as -1; n > 0 reads back as n), or deletes the key for negative seconds; other keys and a missing key are left alone |
| NodeCache.FixedWindow | service/nodeCache.js:43-59 | increments of a key inside a window ending at `e`, up to 500 ms before `e`, return c+1, c+2, ... and leave the key in the same window |
| NodeCache.WindowOver | service/nodeCache.js:43-59 | more than 500 ms after the window end the next `incr` returns 1 and stores a fresh record without expiry |
| NodeCache.DroppedThenRestarts | service/nodeCache.js:54-59 | an `incr` that drops the key makes the next `incr` return 1 |
| NodeCache.ClosingWindowDrops | service/nodeCache.js:54-59 | an `incr` less than 500 ms before the window end counts c+1 but drops the key, so the next `incr`, even inside the window, returns 1 |
| NodeCache.SetThenGet | service/nodeCache.js:10-14 | `get` returns what `set` stored until its ttl runs out |
| NodeCache.Store.constructor | service/nodeCache.js:5-8 | a new wrapper starts with an empty cache |
| NodeCache.Store.Set | service/nodeCache.js:10-18 | `set` returns "ok" and stores the value under the given ttl, ignoring `ex` |
| NodeCache.Store.Get | service/nodeCache.js:37-39 | `get` agrees with `Lookup` and changes nothing |
| NodeCache.Store.Ttl | service/nodeCache.js:20-35 | `ttl` agrees with `TtlCode` and changes nothing |
| NodeCache.Store.Incr | service/nodeCache.js:41-65 | the imperative take / count / re-set returns the count and leaves the table `Incremented` describes |
| NodeCache.Store.Expire | service/nodeCache.js:67-69 | `expire` returns and leaves what `Retimed` describes |
| ConnectDatabase.SelectBackend | service/connectDatabase.js:14-27 | the constructor throws the missing-configuration error exactly for "redis" in cluster mode (the default) without a non-empty node list; "nodecache" gives the in-process store; any other database no client; "redis" without cluster mode a standalone client |
| ConnectDatabase.DatabaseConnection.Create | service/connectDatabase.js:10-31 | the constructor fails exactly as `SelectBackend` says; otherwise it keeps the configuration (`{}` for a non-object) and a fresh client of the selected kind: none, an empty in-process store, or a connecting Redis client without listeners |
| ConnectDatabase.DatabaseConnection.OnError | service/connectDatabase.js:33-35 | registers the callback for "error" on a Redis client only; otherwise changes nothing |
| ConnectDatabase.DatabaseConnection.OnReconnect | service/connectDatabase.js:37-39 | registers the callback for "reconnecting" on a Redis client only; otherwise changes nothing |
| ConnectDatabase.DatabaseConnection.CheckReadyState | service/connectDatabase.js:41-70 | rejects with "redis connection not present" without a client; resolves at once for the in-process store or a ready Redis client; otherwise adds a fresh "ready" handler and, when asked to reject on error, a fresh "error" handler, and stays pending |
| ConnectDatabase.Deliver | service/connectDatabase.js:49-58 | `handleReady` resolves and removes itself, `handleError` rejects with the error and removes itself, a caller's callback runs and stays |
| ConnectDatabase.WaitRepeatedly | service/connectDatabase.js:60-66 | n checks against a client that is not ready leave n more listeners behind |
| ConnectDatabase.ErrorHandlerOutlivesReady | service/connectDatabase.js:49-66 | a `checkReadyState(true)` on a client that is not ready, followed by its "ready" event, leaves the `handleError` of that wait registered: the listeners end as before plus that one error handler |
| ConnectDatabase.DatabaseConnection.GetDbConnection | service/connectDatabase.js:93-95 | null exactly when the database is neither "redis" nor "nodecache"; the in-process store exactly for "nodecache" |
| ConnectDatabase.DatabaseConnection.Disconnect | service/connectDatabase.js:97-102 | throws "no redis connection" without a client, throws a TypeError with the in-process store, succeeds for Redis |
| ConnectDatabase.DisconnectInProcess | service/connectDatabase.js:97-102 | a connection built for "nodecache" throws when disconnected |
| ConnectDatabase.DatabaseConnection.DisconnectIntended | service/connectDatabase.js:97-102 | throws exactly when there is no client |
| RateLimit.PolicyOf | index.js:33-41 | without options every default applies; a given `maxHits` or `window` is used as is |
| RateLimit.FirstField | index.js:55 | `split(',')[0]`: a prefix of the header holding no comma, followed by a comma when shorter |
| RateLimit.PeerAddress | index.js:57 | the first non-empty of socket address, connection address and `req.ip`, else "" |
| RateLimit.ClientIp | index.js:52-58 | behind a proxy with the header present, its first field; otherwise the transport address |
| RateLimit.DeriveKey | index.js:50-61 | the key is `appName` or `appName-ip`, and it differs from `appName` exactly when limiting by IP with a known IP |
| RateLimit.DistinctClientsDistinctKeys | index.js:60-61 | with IP-based limiting, two different known IPs are counted under different keys |
| RateLimit.SharedKeyWithoutIp | index.js:50-61 | without IP-based limiting, every request shares the key `appName` |
| RateLimit.Remaining | index.js:76-78 | `x-ratelimit-remaining` is never negative, 0 exactly when the count has reached `maxHits`, else `maxHits - count` |
| RateLimit.Conclude | index.js:72-84 | `next()` exactly when the count is at most `maxHits`, else 429 with the message; with headers enabled, the expose list, limit, remaining and reset headers are set and no other header changes |
| RateLimit.Respond | index.js:63-93 | the store calls are exactly `incr`, then `ttl` unless `incr` threw, then `expire(key, window)` only after a -1 ttl; a failing store call ends the request without `next()` or a response and hands the error to `onExit` when given; otherwise the decision uses the ttl, or the window when `expire` succeeded, or -1 |
| RateLimit.LocalExchange | index.js:66-69 | against the in-process store no call throws, the count is the one `incr` returns, and a -1 ttl is always followed by a successful `expire` |
| RateLimit.Serve | index.js:28-94 | the disabled middleware just calls `next()`; without a client every request fails with "redis connection not present"; with the in-process store the request is answered as `Respond` over `LocalExchange` and the table updated accordingly; with a ready Redis client as `Respond` over its replies; with a client not yet ready the request waits on a fresh "ready" handler (and no "error" handler), the client status unchanged |
| RateLimit.InitRateLimit | index.js:6-27 | disabled (the default) gives a pass-through; a missing or empty `appName` or a bad Redis configuration attaches nothing and reports the error to `onExit` when given; otherwise a limiter over a fresh valid connection for the configured database: "nodecache" attaches at once over an empty in-process store, "redis" waits for the client with the hooks and both wait handlers registered |
| RateLimit.RegisterHooks | index.js:21-22 | the supplied `onError` and `onReconnect` are added to the Redis client's listeners, and its status is left alone |
| RateLimit.AwaitClient | index.js:20-24 | on a fresh Redis client, the hooks and one fresh pair of "ready" / "error" wait handlers are exactly the listeners registered |
| RateLimit.Resumed | index.js:95-102 | a waiting initialisation attaches the limiter when its "ready" handler runs and attaches nothing, reporting the error to `onExit` when given, when its "error" handler runs |
| RateLimit.RequestInWindow | index.js:66-84 | one request inside an open window is counted as the next hit, with a reset header between 1 and the window, and keeps the window |
| RateLimit.WindowKept | index.js:64-84 | requests inside one window leave the key in the same window, its count raised by their number |
| RateLimit.RequestsInWindow | index.js:64-84 | requests inside one window are counted c+1, c+2, ... (admitted up to `maxHits`, 429 after) |
| RateLimit.FreshWindow | index.js:64-84 | from a key with no live counter, the k-th request within the window is hit k: requests 1 to `maxHits` are admitted and every later one answered 429 |

## Left out

- Logging (`config/logger.js`, every `logger.*` call): it has no effect on results.
- The Redis server and the ioredis client library: what Redis replies to `incr`, `ttl` and `expire` is a parameter of `RateLimit.Serve`, and the client's connection status is set from outside; `Redis.Cluster` and `Redis` are the same opaque handle tagged with the chosen backend.
- The debug listeners `attachListiner` registers on a Redis client: they only log.
- Event timing: a request or an initialisation waiting for the Redis client is not resumed by the model beyond `RateLimit.Resumed`; concurrent requests and the interleaving of their `incr` and `expire` calls are not modelled (each request runs to the end at one time `now`).
- The clock: the source reads `Date.now()` several times within one operation (node-cache reads it in the expiry checks of `getTtl`, `take` and `get`, and in `set` to compute the new expiry; the wrapper reads it again for the rounding), so `incr` alone reads it about four times. The model uses one `now` for a whole request. What this hides: a key that expires between `getTtl` (service/nodeCache.js:43) and `take` (service/nodeCache.js:44) makes `incr` return 1, and the stale ttl then becomes the window end, whose rounded seconds are not positive, so the key is dropped.
- node-cache internals: the periodic expiry check, value cloning, statistics, key validation and the `maxKeys` limit. node-cache treats an entry as expired only when its expiry is strictly earlier than the current time; the model treats it as expired from its expiry on.
- `JSON.parse` of the boolean options: they are booleans in the model; strings such as "true" are not modelled.
- `null` option values: the model has only "given" and "not given" (`None`), and the source's defaults apply to `undefined` alone. A `null` `maxHits` makes `count > null` true, so every request is answered 429; a `null` `clusterMode` selects a standalone Redis client; a `null` `ipBasedRateLimiting` turns per-IP keys off. None of these is modelled.
- `res.send`'s own headers (content type, length): the response is its headers, status and body.
- The effect of `disconnect()` on a Redis client.
- RateLimit.Conclude: header names are compared case-sensitively. Node stores response headers under their lower-cased name, so a caller's `X-RateLimit-Limit` is replaced by `setHeader('x-ratelimit-limit', …)`; in the model both keys stay, and "no other header changes" holds of the model only. Likewise `req.headers` keys are lower-cased by Node, so a mixed-case `originatingIpHeader` never matches in the source, while `RateLimit.HeaderOf` looks the name up as given.
- RateLimit.PolicyOf: the contract states the defaults and the `maxHits` and `window` overrides; the other options are passed through the same way but are not restated.

## Findings

| source | as written | input that shows it | evidently intended | confidence | as-written member | corrected member |
|---|---|---|---|---|---|---|
| service/connectDatabase.js:101 | `disconnect()` calls `disconnect` on whatever client it holds, but the in-process store's wrapper has no such function, so it throws a TypeError | a connection built with `{ database: "nodecache" }`, then `disconnect()` | `disconnect()` throws only when there is no client | high, not executed | ConnectDatabase.DisconnectInProcess | ConnectDatabase.DatabaseConnection.DisconnectIntended |
