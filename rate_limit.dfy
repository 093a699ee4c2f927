/** `initRateLimit` and the middleware it returns: derive the rate-limit key of a request,
    count the request in the store (increment, read the ttl, set the window when the key has
    none), optionally report the three rate-limit headers, and either pass the request on or
    answer 429 Too Many Requests (section 4 of RFC 6585). Logging is not modelled. */
module RateLimit {
  import opened Wrappers
  import NodeCache
  import opened ConnectDatabase

  /** The `rateLimitConfig` object; `None` fields are left undefined by the caller. */
  datatype RateLimitConfig = RateLimitConfig(
    maxHits: Option<int>,
    window: Option<int>,
    message: Option<string>,
    headerEnabled: Option<bool>,
    ipBasedRateLimiting: Option<bool>,
    originatingIpHeader: Option<string>,
    isBehindAProxy: Option<bool>)

  /** The options in force for a request; `window` is in seconds. */
  datatype Policy = Policy(
    maxHits: int,
    window: int,
    message: string,
    headerEnabled: bool,
    ipBasedRateLimiting: bool,
    originatingIpHeader: string,
    isBehindAProxy: bool)

  const DefaultPolicy := Policy(1000, 1, "Too many request from this IP", false, true, "x-forwarded-for", false)

  /** The options with their defaults filled in, as the middleware reads them on each request. */
  function PolicyOf(cfg: Option<RateLimitConfig>): (p: Policy)
    ensures cfg.None? ==> p == DefaultPolicy
    ensures cfg.Some? && cfg.value.maxHits.Some? ==> p.maxHits == cfg.value.maxHits.value
    ensures cfg.Some? && cfg.value.window.Some? ==> p.window == cfg.value.window.value
  {
    match cfg
    case None => DefaultPolicy
    case Some(c) =>
      Policy(
        c.maxHits.GetOr(DefaultPolicy.maxHits),
        c.window.GetOr(DefaultPolicy.window),
        c.message.GetOr(DefaultPolicy.message),
        c.headerEnabled.GetOr(DefaultPolicy.headerEnabled),
        c.ipBasedRateLimiting.GetOr(DefaultPolicy.ipBasedRateLimiting),
        c.originatingIpHeader.GetOr(DefaultPolicy.originatingIpHeader),
        c.isBehindAProxy.GetOr(DefaultPolicy.isBehindAProxy))
  }

  /** The parts of a request the key depends on: its headers and the addresses the framework
      offers (`req.socket.remoteAddress`, `req.connection.remoteAddress`, `req.ip`). */
  datatype Request = Request(
    headers: map<string, string>,
    socketAddress: Option<string>,
    connectionAddress: Option<string>,
    ip: Option<string>)

  /** A string JavaScript treats as true: defined and not empty. */
  predicate Truthy(s: Option<string>)
  {
    s.Some? && s.value != ""
  }

  function HeaderOf(req: Request, name: string): Option<string>
  {
    if name in req.headers then Some(req.headers[name]) else None
  }

  /** The client address is taken from the originating-IP header. */
  predicate Forwarded(p: Policy, req: Request)
  {
    p.isBehindAProxy && Truthy(HeaderOf(req, p.originatingIpHeader))
  }

  /** `s.split(',')[0]`: the text before the first comma, or all of `s` when it has none. */
  function FirstField(s: string): (r: string)
    ensures r <= s
    ensures ',' !in r
    ensures |r| < |s| ==> s[|r|] == ','
  {
    if s == [] || s[0] == ',' then [] else [s[0]] + FirstField(s[1..])
  }

  /** The first non-empty transport address of the request, or "". */
  function PeerAddress(req: Request): (a: string)
    ensures a == "" <==> !Truthy(req.socketAddress) && !Truthy(req.connectionAddress) && !Truthy(req.ip)
    ensures Truthy(req.socketAddress) ==> a == req.socketAddress.value
    ensures !Truthy(req.socketAddress) && Truthy(req.connectionAddress) ==> a == req.connectionAddress.value
    ensures !Truthy(req.socketAddress) && !Truthy(req.connectionAddress) && Truthy(req.ip) ==> a == req.ip.value
  {
    if Truthy(req.socketAddress) then req.socketAddress.value
    else if Truthy(req.connectionAddress) then req.connectionAddress.value
    else if Truthy(req.ip) then req.ip.value
    else ""
  }

  /** The client IP: behind a proxy, the first hop listed in the originating-IP header;
      otherwise the transport address. */
  function ClientIp(p: Policy, req: Request): (ip: string)
    ensures Forwarded(p, req) ==> ip == FirstField(req.headers[p.originatingIpHeader])
    ensures !Forwarded(p, req) ==> ip == PeerAddress(req)
  {
    if Forwarded(p, req) then FirstField(req.headers[p.originatingIpHeader]) else PeerAddress(req)
  }

  /** The rate-limit key: `appName`, or `appName-ip` when limiting by IP and an IP is known. */
  function DeriveKey(appName: string, p: Policy, req: Request): (key: string)
    ensures key == appName || key == appName + "-" + ClientIp(p, req)
    ensures key != appName <==> p.ipBasedRateLimiting && ClientIp(p, req) != ""
  {
    var ip := ClientIp(p, req);
    if p.ipBasedRateLimiting && ip != "" then appName + "-" + ip else appName
  }

  /** With IP-based limiting, clients with different known IPs are counted under different keys. */
  lemma DistinctClientsDistinctKeys(appName: string, p: Policy, r1: Request, r2: Request)
    requires p.ipBasedRateLimiting
    requires ClientIp(p, r1) != "" && ClientIp(p, r2) != "" && ClientIp(p, r1) != ClientIp(p, r2)
    ensures DeriveKey(appName, p, r1) != DeriveKey(appName, p, r2)
  {
    var n := |appName + "-"|;
    assert DeriveKey(appName, p, r1)[n..] == ClientIp(p, r1);
    assert DeriveKey(appName, p, r2)[n..] == ClientIp(p, r2);
  }

  /** Without IP-based limiting, every request of the application shares one key. */
  lemma SharedKeyWithoutIp(appName: string, p: Policy, r1: Request, r2: Request)
    requires !p.ipBasedRateLimiting
    ensures DeriveKey(appName, p, r1) == DeriveKey(appName, p, r2) == appName
  {
  }

  /** A header value: a number, or a list of names. */
  datatype HeaderValue = Number(n: int) | Names(names: seq<string>)

  /** The response as the middleware leaves it. */
  datatype Response = Response(headers: map<string, HeaderValue>, status: int, body: Option<string>)

  const ExposeHeaders := "Access-Control-Expose-Headers"
  const LimitHeader := "x-ratelimit-limit"
  const RemainingHeader := "x-ratelimit-remaining"
  const ResetHeader := "x-ratelimit-reset"
  const ExposedNames := [ResetHeader, RemainingHeader, LimitHeader]
  const RateLimitHeaders := {ExposeHeaders, LimitHeader, RemainingHeader, ResetHeader}
  const TooManyRequests := 429

  /** `x-ratelimit-remaining`: the hits left in the window, never negative. */
  function Remaining(maxHits: int, count: int): (r: int)
    ensures r >= 0
    ensures r == 0 <==> count >= maxHits
    ensures r > 0 ==> r == maxHits - count
  {
    var remaining := maxHits - count;
    if remaining < 0 then 0 else remaining
  }

  /** A call the middleware makes on the store. */
  datatype StoreCall = IncrCall(key: string) | TtlCall(key: string) | ExpireCall(key: string, seconds: int)

  /** What the store's `incr`, `ttl` and `expire` return or throw for this request. */
  datatype Replies = Replies(incr: Result<int>, ttl: Result<int>, expire: Result<bool>)

  /** How a request ends: `next()` called or not, the response, the error passed to `onExit`
      and the store calls made; or still waiting for the client to become ready. */
  datatype Handled =
    | Finished(res: Response, nextCalled: bool, exitError: Option<string>, calls: seq<StoreCall>)
    | AwaitingReady(res: Response, waiter: Waiter)

  /** The error handed to `onExit`, when the caller supplied one. */
  function ExitWith(onExit: bool, error: string): Option<string>
  {
    if onExit then Some(error) else None
  }

  /** Headers and decision, once the count and the reset value are known. */
  function Conclude(p: Policy, count: int, reset: int, res: Response, calls: seq<StoreCall>): (o: Handled)
    ensures o.Finished? && o.calls == calls && o.exitError == None
    // exactly one of: the request continues, or it is answered 429 with the message
    ensures o.nextCalled <==> count <= p.maxHits
    ensures !o.nextCalled ==> o.res.status == TooManyRequests && o.res.body == Some(p.message)
    ensures o.nextCalled ==> o.res.status == res.status && o.res.body == res.body
    ensures !p.headerEnabled ==> o.res.headers == res.headers
    ensures p.headerEnabled ==>
              && o.res.headers.Keys == res.headers.Keys + RateLimitHeaders
              && o.res.headers[ExposeHeaders] == Names(ExposedNames)
              && o.res.headers[LimitHeader] == Number(p.maxHits)
              && o.res.headers[RemainingHeader] == Number(Remaining(p.maxHits, count))
              && o.res.headers[ResetHeader] == Number(reset)
    ensures forall h :: h in res.headers && h !in RateLimitHeaders ==> o.res.headers[h] == res.headers[h]
  {
    var headers :=
      if p.headerEnabled then
        res.headers[ExposeHeaders := Names(ExposedNames)]
                   [LimitHeader := Number(p.maxHits)]
                   [RemainingHeader := Number(Remaining(p.maxHits, count))]
                   [ResetHeader := Number(reset)]
      else res.headers;
    if count > p.maxHits then
      Finished(Response(headers, TooManyRequests, Some(p.message)), false, None, calls)
    else
      Finished(Response(headers, res.status, res.body), true, None, calls)
  }

  /** The error thrown by the first store call that fails, if any. */
  function FirstError(x: Replies): Option<string>
  {
    if x.incr.Err? then Some(x.incr.error)
    else if x.ttl.Err? then Some(x.ttl.error)
    else if x.ttl.value == -1 && x.expire.Err? then Some(x.expire.error)
    else None
  }

  /** The request once the key is known and the client is ready: the increment, ttl and
      conditional expire protocol over the store's replies, then the decision. A store error
      ends the request with neither `next()` nor a response. */
  function Respond(p: Policy, key: string, x: Replies, res: Response, onExit: bool): (o: Handled)
    ensures o.Finished? && |o.calls| > 0 && o.calls[0] == IncrCall(key)
    // incr, then ttl unless incr threw, then expire only after a -1 ttl; nothing else
    ensures o.calls == [IncrCall(key)]
                       + (if x.incr.Ok? then [TtlCall(key)] else [])
                       + (if x.incr.Ok? && x.ttl == Ok(-1) then [ExpireCall(key, p.window)] else [])
    // expire is called exactly when the ttl read after the increment is -1
    ensures ExpireCall(key, p.window) in o.calls <==> x.incr.Ok? && x.ttl == Ok(-1)
    // a failing store call: no next(), no response, the error to onExit when supplied
    ensures FirstError(x).Some? ==>
              && o.res == res && !o.nextCalled
              && o.exitError == (if onExit then FirstError(x) else None)
    // otherwise the decision on the count and on the reset value
    ensures FirstError(x).None? ==>
              o == Conclude(p, x.incr.value,
                            if x.ttl.value != -1 then x.ttl.value else if x.expire.value then p.window else -1,
                            res, o.calls)
  {
    match x.incr
    case Err(e) => Finished(res, false, ExitWith(onExit, e), [IncrCall(key)])
    case Ok(count) =>
      match x.ttl
      case Err(e) => Finished(res, false, ExitWith(onExit, e), [IncrCall(key), TtlCall(key)])
      case Ok(keyTtl) =>
        if keyTtl == -1 then
          var calls := [IncrCall(key), TtlCall(key), ExpireCall(key, p.window)];
          match x.expire
          case Err(e) => Finished(res, false, ExitWith(onExit, e), calls)
          case Ok(found) => Conclude(p, count, if found then p.window else -1, res, calls)
        else
          Conclude(p, count, keyTtl, res, [IncrCall(key), TtlCall(key)])
  }

  /** The replies of the in-process store to one request and the table it leaves. */
  datatype Exchange = Exchange(replies: Replies, table: NodeCache.Table)

  /** The protocol run against the in-process store: it never throws, and when its ttl reply
      is -1 the expire that follows finds the key. */
  function LocalExchange(t: NodeCache.Table, key: string, window: int, now: nat): (x: Exchange)
    ensures FirstError(x.replies).None?
    ensures x.replies.incr == Ok(NodeCache.Incremented(t, key, now).count)
    ensures x.replies.ttl == Ok(-1) ==> x.replies.expire == Ok(true)
  {
    var b := NodeCache.Incremented(t, key, now);
    var keyTtl := NodeCache.TtlCode(b.table, key, now);
    var e := NodeCache.Retimed(b.table, key, window, now);
    Exchange(Replies(Ok(b.count), Ok(keyTtl), Ok(e.found)), if keyTtl == -1 then e.table else b.table)
  }

  /** The middleware `initRateLimit` returns. */
  datatype Middleware =
    | PassThrough
    | Limiter(appName: string, config: Option<RateLimitConfig>, db: DatabaseConnection, onExit: bool)

  /** The middleware handling one request. `remote` stands for what a Redis server replies,
      which this model does not compute; the in-process store is modelled by its own operations. */
  method Serve(mw: Middleware, req: Request, res: Response, now: nat, remote: Replies) returns (o: Handled)
    requires mw.Limiter? ==> mw.db.Valid()
    modifies if mw.Limiter? then mw.db.Footprint() else {}
    // the pass-through calls next() and touches nothing
    ensures mw.PassThrough? ==> o == Finished(res, true, None, [])
    // without a connection every request fails: no next(), no response
    ensures mw.Limiter? && mw.db.dbConnection.NoClient? ==>
              o == Finished(res, false, ExitWith(mw.onExit, NotPresent), [])
    ensures mw.Limiter? && mw.db.dbConnection.Local? ==>
              var x := LocalExchange(old(mw.db.dbConnection.store.table),
                                     DeriveKey(mw.appName, PolicyOf(mw.config), req),
                                     PolicyOf(mw.config).window, now);
              && o == Respond(PolicyOf(mw.config), DeriveKey(mw.appName, PolicyOf(mw.config), req),
                              x.replies, res, mw.onExit)
              && mw.db.dbConnection.store.table == x.table
    ensures mw.Limiter? && mw.db.dbConnection.Remote? && old(mw.db.dbConnection.handle.status) == "ready" ==>
              && o == Respond(PolicyOf(mw.config), DeriveKey(mw.appName, PolicyOf(mw.config), req),
                              remote, res, mw.onExit)
              && unchanged(mw.db.dbConnection.handle)
    // a client that is not ready leaves the request waiting on a fresh "ready" handler (no
    // "error" handler: the middleware does not ask to reject on error)
    ensures mw.Limiter? && mw.db.dbConnection.Remote? && old(mw.db.dbConnection.handle.status) != "ready" ==>
              && o.AwaitingReady? && o.res == res && fresh(o.waiter)
              && mw.db.dbConnection.handle.listeners
                   == old(mw.db.dbConnection.handle.listeners) + multiset{Listener("ready", HandleReady(o.waiter))}
              && mw.db.dbConnection.handle.status == old(mw.db.dbConnection.handle.status)
  {
    if mw.PassThrough? {
      return Finished(res, true, None, []);
    }
    var p := PolicyOf(mw.config);
    var key := DeriveKey(mw.appName, p, req);
    var ready := mw.db.CheckReadyState(false);
    if ready.Rejected? {
      return Finished(res, false, ExitWith(mw.onExit, ready.error), []);
    }
    if ready.Pending? {
      return AwaitingReady(res, ready.waiter);
    }
    match mw.db.dbConnection {
      case Local(store) =>
        var count := store.Incr(key, now);
        var keyTtl := store.Ttl(key, now);
        var calls := [IncrCall(key), TtlCall(key)];
        if keyTtl == -1 {
          var found := store.Expire(key, p.window, now);
          keyTtl := if found then p.window else -1;
          calls := calls + [ExpireCall(key, p.window)];
        }
        o := Conclude(p, count, keyTtl, res, calls);
      case Remote(_) =>
        o := Respond(p, key, remote, res, mw.onExit);
    }
  }

  /** The configuration `initRateLimit` receives. */
  datatype InitConfig = InitConfig(
    databaseConfig: Option<DbConfig>,
    rateLimitConfig: Option<RateLimitConfig>,
    appName: Option<string>,
    isRateLimitEnabled: Option<bool>)

  /** The hooks `initRateLimit` receives; `onExit` records whether one was supplied. */
  datatype Hooks = Hooks(onError: Option<Callback>, onReconnect: Option<Callback>, onExit: bool)

  /** What `initRateLimit` yields: a middleware, nothing (after reporting the error to `onExit`
      when supplied), or a middleware that is handed out once the Redis client is ready. */
  datatype Init =
    | Attached(mw: Middleware)
    | NotAttached(exitError: Option<string>)
    | AwaitingClient(mw: Middleware, waiter: Waiter)

  const AppNameInvalid := "rate-limit requried option appName Invalid"

  /** The listeners the caller's hooks leave on a fresh Redis client. */
  function HookListeners(hooks: Hooks): multiset<Listener>
  {
    (if hooks.onError.Some? then multiset{Listener("error", User(hooks.onError.value))} else multiset{})
    + (if hooks.onReconnect.Some? then multiset{Listener("reconnecting", User(hooks.onReconnect.value))} else multiset{})
  }

  method InitRateLimit(config: InitConfig, hooks: Hooks) returns (r: Init)
    // disabled (the default): a pass-through
    ensures !config.isRateLimitEnabled.GetOr(false) ==> r == Attached(PassThrough)
    ensures config.isRateLimitEnabled.GetOr(false) && !Truthy(config.appName) ==>
              r == NotAttached(ExitWith(hooks.onExit, AppNameInvalid))
    ensures config.isRateLimitEnabled.GetOr(false) && Truthy(config.appName)
            && SelectBackend(ConfigOf(config.databaseConfig)).Err? ==>
              r == NotAttached(ExitWith(hooks.onExit, MissingConfiguration))
    ensures config.isRateLimitEnabled.GetOr(false) && Truthy(config.appName)
            && SelectBackend(ConfigOf(config.databaseConfig)).Ok? ==>
              && (r.Attached? || r.AwaitingClient?)
              && r.mw.Limiter? && fresh(r.mw.db) && fresh(r.mw.db.Footprint()) && r.mw.db.Valid()
              && r.mw.appName == config.appName.value && r.mw.config == config.rateLimitConfig
              && r.mw.onExit == hooks.onExit && r.mw.db.config == ConfigOf(config.databaseConfig)
              && r.mw.db.database == ConfigOf(config.databaseConfig).database
    // "nodecache" gives a limiter over an empty in-process store, attached at once
    ensures config.isRateLimitEnabled.GetOr(false) && Truthy(config.appName)
            && ConfigOf(config.databaseConfig).database == Some(NodeCacheName) ==>
              && r.Attached? && r.mw.Limiter?
              && r.mw.db.dbConnection.Local? && r.mw.db.dbConnection.store.table == map[]
    // only a Redis client is waited for; the hooks are registered on it first
    ensures r.AwaitingClient? <==>
              (&& config.isRateLimitEnabled.GetOr(false) && Truthy(config.appName)
               && SelectBackend(ConfigOf(config.databaseConfig)).Ok?
               && ConfigOf(config.databaseConfig).database == Some(Redis))
    ensures r.AwaitingClient? ==>
              && r.mw.db.dbConnection.Remote? && fresh(r.waiter)
              && r.mw.db.dbConnection.handle.listeners
                   == HookListeners(hooks)
                      + multiset{Listener("ready", HandleReady(r.waiter)), Listener("error", HandleError(r.waiter))}
  {
    if !config.isRateLimitEnabled.GetOr(false) {
      return Attached(PassThrough);
    }
    if !Truthy(config.appName) {
      return NotAttached(ExitWith(hooks.onExit, AppNameInvalid));
    }
    var created := DatabaseConnection.Create(config.databaseConfig);
    if created.Err? {
      return NotAttached(ExitWith(hooks.onExit, created.error));
    }
    var db := created.value;
    var mw := Limiter(config.appName.value, config.rateLimitConfig, db, hooks.onExit);
    if ConfigOf(config.databaseConfig).database == Some(Redis) {
      var w := AwaitClient(db, hooks);
      return AwaitingClient(mw, w);
    }
    r := Attached(mw);
  }

  /** `onError` and `onReconnect` are registered when supplied. */
  method RegisterHooks(db: DatabaseConnection, hooks: Hooks)
    requires db.Valid() && db.dbConnection.Remote? && db.database == Some(Redis)
    modifies db.Footprint()
    ensures db.dbConnection.handle.listeners == old(db.dbConnection.handle.listeners) + HookListeners(hooks)
    ensures db.dbConnection.handle.status == old(db.dbConnection.handle.status)
  {
    var h := db.dbConnection.handle;
    if hooks.onError.Some? {
      db.OnError(hooks.onError);
    }
    assert h.listeners == old(h.listeners)
      + (if hooks.onError.Some? then multiset{Listener("error", User(hooks.onError.value))} else multiset{});
    if hooks.onReconnect.Some? {
      db.OnReconnect(hooks.onReconnect);
    }
  }

  /** The Redis branch of `initRateLimit` on a freshly built client: the caller's hooks are
      registered, then the wait for "ready" that rejects on "error". */
  method AwaitClient(db: DatabaseConnection, hooks: Hooks) returns (w: Waiter)
    requires db.Valid() && db.dbConnection.Remote? && db.database == Some(Redis)
    requires db.dbConnection.handle.status != "ready" && db.dbConnection.handle.listeners == multiset{}
    modifies db.Footprint()
    ensures fresh(w)
    ensures db.dbConnection.handle.listeners
              == HookListeners(hooks)
                 + multiset{Listener("ready", HandleReady(w)), Listener("error", HandleError(w))}
  {
    RegisterHooks(db, hooks);
    var ready := db.CheckReadyState(true);
    // the client is still connecting
    assert ready.Pending?;
    w := ready.waiter;
  }

  /** Initialisation waiting for the Redis client goes on when one of its handlers runs: the
      middleware on "ready", nothing (the error to `onExit` when supplied) on "error". */
  function Resumed(r: Init, e: Effect): (r': Init)
    requires r.AwaitingClient? && r.mw.Limiter?
    ensures e == WaitResolved(r.waiter) ==> r' == Attached(r.mw)
    ensures e.WaitRejected? && e.w == r.waiter ==> r' == NotAttached(ExitWith(r.mw.onExit, e.error))
    ensures e.CallbackRun? || e.w != r.waiter ==> r' == r
  {
    match e
    case WaitResolved(w) => if w == r.waiter then Attached(r.mw) else r
    case WaitRejected(w, error) => if w == r.waiter then NotAttached(ExitWith(r.mw.onExit, error)) else r
    case CallbackRun(_) => r
  }

  /** A response no middleware has touched yet. */
  const Blank := Response(map[], 200, None)

  datatype Served = Served(outcomes: seq<Handled>, table: NodeCache.Table)

  /** Requests for one key at the given times against the in-process store, each on a fresh response. */
  function ServeLocally(p: Policy, key: string, t: NodeCache.Table, times: seq<nat>): (s: Served)
    ensures |s.outcomes| == |times|
    decreases |times|
  {
    if times == [] then Served([], t)
    else
      var x := LocalExchange(t, key, p.window, times[0]);
      var rest := ServeLocally(p, key, x.table, times[1..]);
      Served([Respond(p, key, x.replies, Blank, false)] + rest.outcomes, rest.table)
  }

  /** The request was counted as hit number `n`: admitted exactly up to `maxHits`, otherwise
      answered 429 with the message; with headers on, the remaining count and a reset value
      between 1 and the window length. */
  ghost predicate CountedAs(p: Policy, o: Handled, n: int)
  {
    && o.Finished?
    && (o.nextCalled <==> n <= p.maxHits)
    && (!o.nextCalled ==> o.res.status == TooManyRequests && o.res.body == Some(p.message))
    && (p.headerEnabled ==>
          && RemainingHeader in o.res.headers && ResetHeader in o.res.headers
          && o.res.headers[RemainingHeader] == Number(Remaining(p.maxHits, n))
          && o.res.headers[ResetHeader].Number?
          && 0 < o.res.headers[ResetHeader].n <= p.window)
  }

  /** The outcomes are counted in turn as hits `from + 1`, `from + 2`, ... */
  ghost predicate AllCounted(p: Policy, outcomes: seq<Handled>, from: int)
  {
    forall i :: 0 <= i < |outcomes| ==> CountedAs(p, outcomes[i], from + i + 1)
  }

  /** Every time lies between `lo` and `hi`. */
  predicate Within(times: seq<nat>, lo: int, hi: int)
  {
    forall i :: 0 <= i < |times| ==> lo <= times[i] <= hi
  }

  lemma WithinSplit(times: seq<nat>, lo: int, hi: int)
    requires times != [] && Within(times, lo, hi)
    ensures lo <= times[0] <= hi && Within(times[1..], lo, hi)
  {
    assert forall i :: 0 <= i < |times[1..]| ==> times[1..][i] == times[i + 1];
  }

  /** One request inside a window ending at `e` that opened at `e - window`. */
  lemma RequestInWindow(p: Policy, key: string, t: NodeCache.Table, c: int, e: int, now: nat)
    requires p.window > 0
    requires NodeCache.InWindow(t, key, c, e)
    requires e - p.window * 1000 <= now <= e - 500
    ensures CountedAs(p, Respond(p, key, LocalExchange(t, key, p.window, now).replies, Blank, false), c + 1)
    ensures NodeCache.InWindow(LocalExchange(t, key, p.window, now).table, key, c + 1, e)
  {
    assert NodeCache.Live(t, key, now) && NodeCache.WindowEnd(t, key, now) == e;
    var b := NodeCache.Incremented(t, key, now);
    var s := NodeCache.RoundSeconds(e - now);
    assert 0 < s <= p.window;
    assert key in b.table && b.table[key].expiry == now + s * 1000;
    assert NodeCache.TtlCode(b.table, key, now) == s;
  }

  /** The first request is answered first, and the rest as if served from the table it leaves. */
  lemma ServedInOrder(p: Policy, key: string, t: NodeCache.Table, times: seq<nat>)
    requires times != []
    ensures var x := LocalExchange(t, key, p.window, times[0]);
            var rest := ServeLocally(p, key, x.table, times[1..]);
            && ServeLocally(p, key, t, times).outcomes[0] == Respond(p, key, x.replies, Blank, false)
            && ServeLocally(p, key, t, times).outcomes[1..] == rest.outcomes
            && ServeLocally(p, key, t, times).table == rest.table
  {
  }

  /** Requests counted c + 1 and then, from the second on, c + 2, c + 3, ... are counted c + 1, c + 2, ... */
  lemma CountedInTurn(p: Policy, all: seq<Handled>, rest: seq<Handled>, c: int)
    requires |all| > 0 && all[1..] == rest && CountedAs(p, all[0], c + 1)
    requires AllCounted(p, rest, c + 1)
    ensures AllCounted(p, all, c)
  {
    forall i | 1 <= i < |all|
      ensures CountedAs(p, all[i], c + i + 1)
    {
      assert all[i] == rest[i - 1];
    }
  }

  /** Requests inside one window leave the key in that window with the count raised by their number. */
  lemma {:induction false} WindowKept(p: Policy, key: string, t: NodeCache.Table, c: int, e: int, times: seq<nat>)
    requires p.window > 0
    requires NodeCache.InWindow(t, key, c, e)
    requires Within(times, e - p.window * 1000, e - 500)
    ensures NodeCache.InWindow(ServeLocally(p, key, t, times).table, key, c + |times|, e)
    decreases |times|
  {
    if times != [] {
      var x := LocalExchange(t, key, p.window, times[0]);
      WithinSplit(times, e - p.window * 1000, e - 500);
      ServedInOrder(p, key, t, times);
      RequestInWindow(p, key, t, c, e, times[0]);
      WindowKept(p, key, x.table, c + 1, e, times[1..]);
      assert c + 1 + |times[1..]| == c + |times|;
    }
  }

  /** Requests inside one window are counted c + 1, c + 2, ... */
  lemma {:induction false} RequestsInWindow(p: Policy, key: string, t: NodeCache.Table, c: int, e: int, times: seq<nat>)
    requires p.window > 0
    requires NodeCache.InWindow(t, key, c, e)
    requires Within(times, e - p.window * 1000, e - 500)
    ensures AllCounted(p, ServeLocally(p, key, t, times).outcomes, c)
    decreases |times|
  {
    if times != [] {
      var x := LocalExchange(t, key, p.window, times[0]);
      WithinSplit(times, e - p.window * 1000, e - 500);
      ServedInOrder(p, key, t, times);
      RequestInWindow(p, key, t, c, e, times[0]);
      RequestsInWindow(p, key, x.table, c + 1, e, times[1..]);
      CountedInTurn(p, ServeLocally(p, key, t, times).outcomes, ServeLocally(p, key, x.table, times[1..]).outcomes, c);
    }
  }

  /** A fixed window from the first request: for a key with no live counter, the k-th request
      (k from 1) up to 500 ms before the window closes is counted as hit k, so requests 1 to
      `maxHits` are admitted and every later one is answered 429. */
  lemma FreshWindow(p: Policy, key: string, t: NodeCache.Table, times: seq<nat>)
    requires p.window > 0 && |times| > 0
    requires !NodeCache.Live(t, key, times[0])
    requires forall i :: 0 <= i < |times| ==> times[0] <= times[i] <= times[0] + p.window * 1000 - 500
    ensures AllCounted(p, ServeLocally(p, key, t, times).outcomes, 0)
  {
    var t0 := times[0];
    var e := t0 + p.window * 1000;
    var x := LocalExchange(t, key, p.window, t0);
    var b := NodeCache.Incremented(t, key, t0);
    assert b.count == 1 && b.table[key] == NodeCache.Entry(NodeCache.Record(1, 0), 0);
    assert NodeCache.TtlCode(b.table, key, t0) == -1;
    assert x.table[key] == NodeCache.Entry(NodeCache.Record(1, 0), e);
    assert NodeCache.InWindow(x.table, key, 1, e);
    var first := Respond(p, key, x.replies, Blank, false);
    assert CountedAs(p, first, 1);
    assert Within(times[1..], e - p.window * 1000, e - 500) by {
      assert forall i :: 0 <= i < |times[1..]| ==> times[1..][i] == times[i + 1];
    }
    RequestsInWindow(p, key, x.table, 1, e, times[1..]);
    ServedInOrder(p, key, t, times);
    CountedInTurn(p, ServeLocally(p, key, t, times).outcomes, ServeLocally(p, key, x.table, times[1..]).outcomes, 0);
  }
}
