/** `DatabaseConnection`: picks and builds the counter-store client from the database
    configuration, and keeps the bookkeeping of the listeners it registers on a Redis client
    while waiting for it to become ready. The Redis client itself is an opaque handle: its
    connection `status` (set by the client library) and the multiset of registered listeners. */
module ConnectDatabase {
  import opened Wrappers
  import NodeCache

  /** The `credentials` option: absent, a list of cluster nodes, or a single-endpoint option. */
  datatype Credentials = NoCredentials | NodeList(nodes: seq<string>) | Endpoint(options: string)

  /** The database configuration object; `None` fields are left undefined by the caller. */
  datatype DbConfig = DbConfig(database: Option<string>, clusterMode: Option<bool>, credentials: Credentials)

  /** The `{}` the connection keeps when it is given no configuration object. */
  const EmptyConfig := DbConfig(None, None, NoCredentials)

  const Redis := "redis"
  const NodeCacheName := "nodecache"

  const MissingConfiguration := "file: redisConnection, method: constructor, error: Missing connection configuration"
  const NotPresent := "redis connection not present"
  const NoRedisConnection := "file: redisConnection, method: disconnect, error: no redis connection"
  const DisconnectNotAFunction := "this.dbConnection.disconnect is not a function"

  /** The client the constructor builds. */
  datatype Backend = NoBackend | InProcess | RedisCluster(nodes: seq<string>) | RedisStandalone(credentials: Credentials)

  /** The configuration the constructor keeps: the argument when it is an object, else `{}`. */
  function ConfigOf(raw: Option<DbConfig>): DbConfig
  {
    raw.GetOr(EmptyConfig)
  }

  predicate NonEmptyNodeList(c: Credentials)
  {
    c.NodeList? && |c.nodes| > 0
  }

  /** The constructor's choice of backend, or the error it throws. */
  function SelectBackend(config: DbConfig): (r: Result<Backend>)
    // cluster mode (the default) without a non-empty node list is a configuration error
    ensures r.Err? <==> config.database == Some(Redis) && config.clusterMode.GetOr(true)
                        && !NonEmptyNodeList(config.credentials)
    ensures r.Err? ==> r.error == MissingConfiguration
    ensures r == Ok(InProcess) <==> config.database == Some(NodeCacheName)
    ensures r == Ok(NoBackend) <==> config.database != Some(Redis) && config.database != Some(NodeCacheName)
    ensures r.Ok? && r.value.RedisCluster? ==> NonEmptyNodeList(config.credentials) && r.value.nodes == config.credentials.nodes
    ensures (r.Ok? && r.value.RedisStandalone?) <==> config.database == Some(Redis) && !config.clusterMode.GetOr(true)
  {
    if config.database == Some(Redis) then
      if config.clusterMode.GetOr(true) then
        if !NonEmptyNodeList(config.credentials) then Err(MissingConfiguration)
        else Ok(RedisCluster(config.credentials.nodes))
      else Ok(RedisStandalone(config.credentials))
    else if config.database == Some(NodeCacheName) then Ok(InProcess)
    else Ok(NoBackend)
  }

  /** The identity of one pair of `handleReady`/`handleError` closures: each call of
      `checkReadyState` creates a fresh pair. */
  class Waiter {
    constructor ()
    {
    }
  }

  /** A function supplied by the caller (`onError`, `onReconnect`). */
  datatype Callback = Callback(id: nat)

  datatype Handler = User(cb: Callback) | HandleReady(w: Waiter) | HandleError(w: Waiter)

  datatype Listener = Listener(event: string, handler: Handler)

  /** The Redis client handle. */
  class RedisClient {
    var status: string
    var listeners: multiset<Listener>
    const backend: Backend

    constructor (backend: Backend)
      ensures status == "connecting" && listeners == multiset{} && this.backend == backend
    {
      status := "connecting";
      listeners := multiset{};
      this.backend := backend;
    }

    /** `on(event, handler)`. */
    method On(event: string, h: Handler)
      modifies this
      ensures listeners == old(listeners) + multiset{Listener(event, h)}
      ensures status == old(status)
    {
      listeners := listeners + multiset{Listener(event, h)};
    }

    /** `removeListener(event, handler)`: removes at most one registration of it. */
    method RemoveListener(event: string, h: Handler)
      modifies this
      ensures listeners == old(listeners) - multiset{Listener(event, h)}
      ensures status == old(status)
    {
      listeners := listeners - multiset{Listener(event, h)};
    }
  }

  /** How a `checkReadyState` promise stands when the call returns. */
  datatype Readiness = Resolved | Rejected(error: string) | Pending(waiter: Waiter)

  /** What running one registered listener does. */
  datatype Effect = CallbackRun(cb: Callback) | WaitResolved(w: Waiter) | WaitRejected(w: Waiter, error: string)

  /** The client invokes a registered listener (its event fired, with `error` as the payload of
      an "error" event): `handleReady` and `handleError` remove themselves and settle their
      promise; a caller's callback is run and stays registered. */
  method Deliver(client: RedisClient, l: Listener, error: string) returns (e: Effect)
    requires l in client.listeners
    modifies client
    ensures client.status == old(client.status)
    ensures l.handler.User? ==> e == CallbackRun(l.handler.cb) && client.listeners == old(client.listeners)
    ensures l.handler.HandleReady? ==>
              && e == WaitResolved(l.handler.w)
              && client.listeners == old(client.listeners) - multiset{Listener("ready", l.handler)}
    ensures l.handler.HandleError? ==>
              && e == WaitRejected(l.handler.w, error)
              && client.listeners == old(client.listeners) - multiset{Listener("error", l.handler)}
  {
    match l.handler
    case User(cb) =>
      e := CallbackRun(cb);
    case HandleReady(w) =>
      client.RemoveListener("ready", l.handler);
      e := WaitResolved(w);
    case HandleError(w) =>
      client.RemoveListener("error", l.handler);
      e := WaitRejected(w, error);
  }

  /** The `dbConnection` field: null, the in-process store, or a Redis client. */
  datatype Client = NoClient | Local(store: NodeCache.Store) | Remote(handle: RedisClient)

  class DatabaseConnection {
    var dbConnection: Client
    var config: DbConfig
    var database: Option<string>

    /** The client matches the configured database. */
    ghost predicate Valid()
      reads this
    {
      && (dbConnection.Local? <==> database == Some(NodeCacheName))
      && (dbConnection.Remote? <==> database == Some(Redis))
    }

    /** The objects the connection's operations may change. */
    ghost function Footprint(): set<object>
      reads this
    {
      match dbConnection
      case NoClient => {}
      case Local(s) => {s}
      case Remote(h) => {h}
    }

    constructor Build(config: DbConfig, client: Client)
      ensures this.config == config && database == config.database && dbConnection == client
    {
      this.config := config;
      database := config.database;
      dbConnection := client;
    }

    /** `new DatabaseConnection(config)`: the connection, or the error the constructor throws.
        `raw` is `None` when the argument is not an object. */
    static method Create(raw: Option<DbConfig>) returns (r: Result<DatabaseConnection>)
      ensures r.Err? <==> SelectBackend(ConfigOf(raw)).Err?
      ensures r.Err? ==> r.error == MissingConfiguration
      ensures r.Ok? ==> && fresh(r.value) && fresh(r.value.Footprint()) && r.value.Valid()
                        && r.value.config == ConfigOf(raw) && r.value.database == ConfigOf(raw).database
      ensures r.Ok? && SelectBackend(ConfigOf(raw)) == Ok(NoBackend) ==> r.value.dbConnection == NoClient
      ensures r.Ok? && SelectBackend(ConfigOf(raw)) == Ok(InProcess) ==>
                r.value.dbConnection.Local? && r.value.dbConnection.store.table == map[]
      ensures r.Ok? && SelectBackend(ConfigOf(raw)).value.RedisCluster? ==>
                && r.value.dbConnection.Remote?
                && r.value.dbConnection.handle.backend == SelectBackend(ConfigOf(raw)).value
                && r.value.dbConnection.handle.status == "connecting"
                && r.value.dbConnection.handle.listeners == multiset{}
      ensures r.Ok? && SelectBackend(ConfigOf(raw)).value.RedisStandalone? ==>
                && r.value.dbConnection.Remote?
                && r.value.dbConnection.handle.backend == SelectBackend(ConfigOf(raw)).value
                && r.value.dbConnection.handle.status == "connecting"
                && r.value.dbConnection.handle.listeners == multiset{}
    {
      var config := ConfigOf(raw);
      var backend := SelectBackend(config);
      if backend.Err? {
        return Err(backend.error);
      }
      var client: Client;
      if backend.value.NoBackend? {
        client := NoClient;
      } else if backend.value.InProcess? {
        var s := new NodeCache.Store();
        client := Local(s);
      } else {
        // Redis.Cluster or Redis: the same opaque handle, tagged with the backend it stands for
        var h := new RedisClient(backend.value);
        client := Remote(h);
      }
      var c := new DatabaseConnection.Build(config, client);
      r := Ok(c);
    }

    /** `onError(cb)`: registers `cb` for "error" on a Redis client; otherwise does nothing. */
    method OnError(cb: Option<Callback>)
      requires Valid()
      modifies Footprint()
      ensures cb.Some? && dbConnection != NoClient && database == Some(Redis) ==>
                dbConnection.handle.listeners
                  == old(dbConnection.handle.listeners) + multiset{Listener("error", User(cb.value))}
      ensures !(cb.Some? && dbConnection != NoClient && database == Some(Redis)) ==> unchanged(Footprint())
      ensures dbConnection.Remote? ==> dbConnection.handle.status == old(dbConnection.handle.status)
    {
      if cb.Some? && dbConnection != NoClient && database == Some(Redis) {
        dbConnection.handle.On("error", User(cb.value));
      }
    }

    /** `onReconnect(cb)`: registers `cb` for "reconnecting" on a Redis client; otherwise does nothing. */
    method OnReconnect(cb: Option<Callback>)
      requires Valid()
      modifies Footprint()
      ensures cb.Some? && dbConnection != NoClient && database == Some(Redis) ==>
                dbConnection.handle.listeners
                  == old(dbConnection.handle.listeners) + multiset{Listener("reconnecting", User(cb.value))}
      ensures !(cb.Some? && dbConnection != NoClient && database == Some(Redis)) ==> unchanged(Footprint())
      ensures dbConnection.Remote? ==> dbConnection.handle.status == old(dbConnection.handle.status)
    {
      if cb.Some? && dbConnection != NoClient && database == Some(Redis) {
        dbConnection.handle.On("reconnecting", User(cb.value));
      }
    }

    /** `checkReadyState(rejectOnError)`: rejects without a connection, resolves at once when
        the client is ready, and otherwise registers a fresh "ready" handler and, when
        `rejectOnError`, a fresh "error" handler. */
    method CheckReadyState(rejectOnError: bool) returns (r: Readiness)
      requires Valid()
      modifies Footprint()
      ensures dbConnection.NoClient? ==> r == Rejected(NotPresent)
      ensures dbConnection.Local? ==> r == Resolved && unchanged(Footprint())
      ensures dbConnection.Remote? && old(dbConnection.handle.status) == "ready" ==>
                r == Resolved && unchanged(Footprint())
      ensures dbConnection.Remote? && old(dbConnection.handle.status) != "ready" ==>
                && r.Pending? && fresh(r.waiter)
                && dbConnection.handle.listeners
                     == old(dbConnection.handle.listeners)
                        + multiset{Listener("ready", HandleReady(r.waiter))}
                        + (if rejectOnError then multiset{Listener("error", HandleError(r.waiter))} else multiset{})
      ensures dbConnection.Remote? ==> dbConnection.handle.status == old(dbConnection.handle.status)
    {
      match dbConnection
      case NoClient =>
        r := Rejected(NotPresent);
      case Local(s) =>
        // the in-process store always reports "ready"
        assert database == Some(NodeCacheName) && s.status == NodeCache.Ready;
        r := Resolved;
      case Remote(h) =>
        if h.status == "ready" {
          r := Resolved;
        } else {
          var w := new Waiter();
          h.On("ready", HandleReady(w));
          if rejectOnError {
            h.On("error", HandleError(w));
          }
          r := Pending(w);
        }
    }

    /** `getDbConnection()`: null exactly when the database is neither "redis" nor "nodecache". */
    function GetDbConnection(): (c: Client)
      reads this
      requires Valid()
      ensures c.NoClient? <==> database != Some(Redis) && database != Some(NodeCacheName)
      ensures c.Local? <==> database == Some(NodeCacheName)
    {
      dbConnection
    }

    /** `disconnect()` as written: throws without a connection, and also with the in-process
        store, whose wrapper has no `disconnect` function. */
    method Disconnect() returns (r: Outcome)
      ensures dbConnection.NoClient? ==> r == Fail(NoRedisConnection)
      ensures dbConnection.Local? ==> r == Fail(DisconnectNotAFunction)
      ensures dbConnection.Remote? ==> r == Pass
    {
      match dbConnection
      case NoClient =>
        r := Fail(NoRedisConnection);
      case Local(_) =>
        r := Fail(DisconnectNotAFunction);
      case Remote(_) =>
        r := Pass;
    }

    /** `disconnect()` as evidently intended: it throws only when there is no connection. */
    method DisconnectIntended() returns (r: Outcome)
      ensures r.Fail? <==> dbConnection.NoClient?
      ensures r.Fail? ==> r.error == NoRedisConnection
    {
      if dbConnection.NoClient? {
        r := Fail(NoRedisConnection);
      } else {
        r := Pass;
      }
    }
  }

  /** A connection configured for the in-process store throws when it is disconnected. */
  method DisconnectInProcess() returns (r: Outcome)
    ensures r == Fail(DisconnectNotAFunction)
  {
    var c := DatabaseConnection.Create(Some(DbConfig(Some(NodeCacheName), None, NoCredentials)));
    r := c.value.Disconnect();
  }

  /** While the client is not ready, every `checkReadyState` call adds one more "ready"
      listener: n waits leave n handlers behind until the client becomes ready. */
  method WaitRepeatedly(db: DatabaseConnection, n: nat) returns (added: nat)
    requires db.Valid() && db.dbConnection.Remote? && db.dbConnection.handle.status != "ready"
    modifies db.Footprint()
    ensures added == n
    ensures |db.dbConnection.handle.listeners| == |old(db.dbConnection.handle.listeners)| + n
  {
    added := 0;
    while added < n
      invariant added <= n
      invariant db.dbConnection.handle.status == old(db.dbConnection.handle.status)
      invariant |db.dbConnection.handle.listeners| == |old(db.dbConnection.handle.listeners)| + added
    {
      var r := db.CheckReadyState(false);
      added := added + 1;
    }
  }

  /** Once the client signals "ready", the error handler of the same wait stays registered:
      `initRateLimit`'s wait registers both handlers, and only `handleReady` removes itself. */
  method ErrorHandlerOutlivesReady(db: DatabaseConnection) returns (w: Waiter)
    requires db.Valid() && db.dbConnection.Remote? && db.dbConnection.handle.status != "ready"
    modifies db.Footprint()
    ensures fresh(w)
    ensures Listener("error", HandleError(w)) in db.dbConnection.handle.listeners
    ensures Listener("ready", HandleReady(w)) !in db.dbConnection.handle.listeners
    ensures db.dbConnection.handle.listeners
              == old(db.dbConnection.handle.listeners) + multiset{Listener("error", HandleError(w))}
  {
    var r := db.CheckReadyState(true);
    w := r.waiter;
    var e := Deliver(db.dbConnection.handle, Listener("ready", HandleReady(w)), "");
  }
}
