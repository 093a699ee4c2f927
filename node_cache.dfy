/** The in-process counter store: the wrapper that `NodeCache()` builds around a node-cache
    instance. The cache is a table from key to value and expiry time. An expiry is a time in
    milliseconds since the epoch, 0 meaning "never". The model treats an entry as absent from
    its expiry on (node-cache: once the expiry is strictly past). Every operation
    receives the current time `now` in milliseconds instead of reading a clock. */
module NodeCache {
  import opened Wrappers

  /** What the wrapper stores under a key. `Record` is the object `incr` writes: a `count` of 0
      stands for a missing or falsy count, an `expireAt` of 0 for a record without a window end.
      `Text` stands for any other value stored with `set`. */
  datatype Value = Record(count: int, expireAt: int) | Text(text: string)

  /** A cache slot: the value and its expiry in milliseconds, 0 meaning none. */
  datatype Entry = Entry(value: Value, expiry: int)

  type Table = map<string, Entry>

  /** The `status` the wrapper always reports. */
  const Ready := "ready"

  /** The key holds an entry that has not expired at `now`. */
  predicate Live(t: Table, key: string, now: nat)
  {
    key in t && (t[key].expiry == 0 || now < t[key].expiry)
  }

  /** node-cache `getTtl`: `undefined` for an absent or expired key, otherwise the expiry. */
  function GetTtl(t: Table, key: string, now: nat): Option<int>
  {
    if Live(t, key, now) then Some(t[key].expiry) else None
  }

  /** `Math.round(ms / 1000)` on a whole number of milliseconds (halves round upwards). */
  function RoundSeconds(ms: int): (s: int)
    ensures s * 1000 - 500 <= ms < s * 1000 + 500
  {
    (ms + 500) / 1000
  }

  /** The entry node-cache stores for a value and a ttl in seconds (0 meaning no expiry). */
  function Wrap(v: Value, ttl: int, now: nat): Entry
  {
    Entry(v, if ttl == 0 then 0 else now + ttl * 1000)
  }

  /** `get`: the stored value of a live key. */
  function Lookup(t: Table, key: string, now: nat): (r: Option<Value>)
    ensures r.Some? <==> Live(t, key, now)
    ensures r.Some? ==> r.value == t[key].value
  {
    if Live(t, key, now) then Some(t[key].value) else None
  }

  /** The table after `set(key, val, ex, ttl)`. */
  function Stored(t: Table, key: string, v: Value, ttl: int, now: nat): Table
  {
    t[key := Wrap(v, ttl, now)]
  }

  /** `ttl`: the Redis-style reply, -2 for an absent key, -1 for a key without expiry, and
      otherwise the remaining time rounded to whole seconds. */
  function TtlCode(t: Table, key: string, now: nat): (r: int)
    ensures r == -2 <==> !Live(t, key, now)
    ensures r == -1 <==> Live(t, key, now) && t[key].expiry == 0
    ensures r >= 0 <==> Live(t, key, now) && t[key].expiry != 0
    ensures r >= 0 ==> r * 1000 - 500 <= t[key].expiry - now < r * 1000 + 500
  {
    match GetTtl(t, key, now)
    case None => -2
    case Some(e) => if e != 0 then RoundSeconds(e - now) else -1
  }

  function CountOf(v: Value): int
  {
    if v.Record? then v.count else 0
  }

  function ExpireAtOf(v: Value): int
  {
    if v.Record? then v.expireAt else 0
  }

  /** The end of the key's current window, as `incr` sees it: the `expireAt` stored in the
      record or, while the record has none, the cache expiry read before the take; 0 when the
      key is absent or has neither. */
  function WindowEnd(t: Table, key: string, now: nat): int
  {
    if !Live(t, key, now) then 0
    else if ExpireAtOf(t[key].value) != 0 then ExpireAtOf(t[key].value)
    else t[key].expiry
  }

  datatype Bump = Bump(count: int, table: Table)

  /** `incr(key)`: the count it returns and the table it leaves. */
  function Incremented(t: Table, key: string, now: nat): (r: Bump)
    // no other key changes
    ensures r.table - {key} == t - {key}
    // an absent key starts at 1, stored without expiry
    ensures !Live(t, key, now) ==> r.count == 1 && r.table == t[key := Entry(Record(1, 0), 0)]
    // a live count goes up by one
    ensures Live(t, key, now) && CountOf(t[key].value) != 0 ==> r.count == CountOf(t[key].value) + 1
    // a live value without a truthy count (a zero count, or a value stored with `set`) restarts at 1
    ensures Live(t, key, now) && CountOf(t[key].value) == 0 ==> r.count == 1
    // without a window end, the new record has none either
    ensures WindowEnd(t, key, now) == 0 ==> r.table == t[key := Entry(Record(r.count, 0), 0)]
    // with a window end, the key is kept exactly while the rounded remaining seconds are positive
    ensures WindowEnd(t, key, now) != 0 ==>
              (key in r.table <==> RoundSeconds(WindowEnd(t, key, now) - now) > 0)
    // ... and the kept record carries that same window end, the cache expiry within 500 ms of it
    ensures WindowEnd(t, key, now) != 0 && key in r.table ==>
              && r.table[key].value == Record(r.count, WindowEnd(t, key, now))
              && r.table[key].expiry == now + RoundSeconds(WindowEnd(t, key, now) - now) * 1000
              && WindowEnd(t, key, now) - 500 < r.table[key].expiry <= WindowEnd(t, key, now) + 500
  {
    var keyTtl := GetTtl(t, key, now);
    var taken := Lookup(t, key, now);
    var rest := t - {key};
    var count := if taken.Some? && CountOf(taken.value) != 0 then CountOf(taken.value) + 1 else 1;
    var stored := if taken.Some? then ExpireAtOf(taken.value) else 0;
    var expireAt := if stored != 0 then stored else keyTtl.GetOr(0);
    var seconds := if expireAt != 0 then RoundSeconds(expireAt - now) else 0;
    if (expireAt != 0 && seconds > 0) || expireAt == 0 then
      Bump(count, rest[key := Wrap(Record(count, expireAt), seconds, now)])
    else
      Bump(count, rest)
  }

  datatype Retime = Retime(found: bool, table: Table)

  /** `expire(key, seconds)`, node-cache's `ttl(key, seconds)`: a live key is re-timed
      unconditionally (0 seconds meaning no expiry, a negative number deleting it). */
  function Retimed(t: Table, key: string, seconds: int, now: nat): (r: Retime)
    ensures r.found <==> Live(t, key, now)
    ensures r.table - {key} == t - {key}
    ensures !r.found ==> r.table == t
    ensures r.found && seconds >= 0 ==> key in r.table && r.table[key].value == t[key].value
    ensures r.found && seconds < 0 ==> key !in r.table
    ensures r.found && seconds == 0 ==> TtlCode(r.table, key, now) == -1
    ensures r.found && seconds > 0 ==> TtlCode(r.table, key, now) == seconds
  {
    if !Live(t, key, now) then Retime(false, t)
    else if seconds >= 0 then Retime(true, t[key := Wrap(t[key].value, seconds, now)])
    else Retime(true, t - {key})
  }

  datatype Run = Run(counts: seq<int>, table: Table)

  /** Increments of one key at the given times, in order: the counts returned and the final table. */
  function IncrRun(t: Table, key: string, times: seq<nat>): (r: Run)
    ensures |r.counts| == |times|
    decreases |times|
  {
    if times == [] then Run([], t)
    else
      var b := Incremented(t, key, times[0]);
      var rest := IncrRun(b.table, key, times[1..]);
      Run([b.count] + rest.counts, rest.table)
  }

  /** The key is inside a window ending at `e` with count `c`: either the record has no window
      end yet and the cache expiry is `e` (right after `expire`), or the record carries `e` and
      the cache expiry is within 500 ms of it (after an `incr`). */
  predicate InWindow(t: Table, key: string, c: int, e: int)
  {
    && key in t && c > 0 && e != 0
    && ((t[key].value == Record(c, 0) && t[key].expiry == e)
        || (t[key].value == Record(c, e) && t[key].expiry != 0 && e - 500 < t[key].expiry <= e + 500))
  }

  /** Fixed window: increments up to 500 ms before the window end `e` count up by one each and
      leave the key in the same window; the end is never moved. */
  lemma {:induction false} FixedWindow(t: Table, key: string, c: int, e: int, times: seq<nat>)
    requires InWindow(t, key, c, e)
    requires forall i :: 0 <= i < |times| ==> times[i] <= e - 500
    ensures forall i :: 0 <= i < |times| ==> IncrRun(t, key, times).counts[i] == c + i + 1
    ensures InWindow(IncrRun(t, key, times).table, key, c + |times|, e)
    decreases |times|
  {
    if times != [] {
      var now := times[0];
      assert Live(t, key, now) && WindowEnd(t, key, now) == e;
      var b := Incremented(t, key, now);
      assert RoundSeconds(e - now) > 0;
      assert InWindow(b.table, key, c + 1, e);
      FixedWindow(b.table, key, c + 1, e, times[1..]);
      var rest := IncrRun(b.table, key, times[1..]);
      assert IncrRun(t, key, times) == Run([c + 1] + rest.counts, rest.table);
    }
  }

  /** More than 500 ms past the window end the key has expired: the next `incr` starts over at 1. */
  lemma WindowOver(t: Table, key: string, c: int, e: int, now: nat)
    requires InWindow(t, key, c, e) && now > e + 500
    ensures Incremented(t, key, now) == Bump(1, t[key := Entry(Record(1, 0), 0)])
  {
  }

  /** In the last 500 ms of a window the rounded remaining time is 0 seconds: `incr` still counts
      c + 1 but drops the key, so the next `incr`, though inside the same window, returns 1. */
  lemma ClosingWindowDrops(t: Table, key: string, c: int, e: int, now: nat, later: nat)
    requires InWindow(t, key, c, e) && Live(t, key, now) && e - 500 < now
    ensures Incremented(t, key, now).count == c + 1
    ensures key !in Incremented(t, key, now).table
    ensures Incremented(Incremented(t, key, now).table, key, later).count == 1
  {
    assert WindowEnd(t, key, now) == e;
    assert RoundSeconds(e - now) <= 0;
  }

  /** An `incr` that drops the key (its rounded remaining seconds were not positive) makes the
      following `incr` return 1. */
  lemma DroppedThenRestarts(t: Table, key: string, now: nat, later: nat)
    requires key !in Incremented(t, key, now).table
    ensures Incremented(Incremented(t, key, now).table, key, later).count == 1
  {
  }

  /** `get` returns what `set` stored while its ttl has not run out. */
  lemma SetThenGet(t: Table, key: string, v: Value, ttl: int, now: nat, later: nat)
    requires ttl >= 0 && now <= later && (ttl == 0 || later < now + ttl * 1000)
    ensures Lookup(Stored(t, key, v, ttl, now), key, later) == Some(v)
  {
  }

  /** The wrapper object: the node-cache instance it closes over is the field `table`. */
  class Store {
    var table: Table
    const status := Ready

    constructor ()
      ensures table == map[]
    {
      table := map[];
    }

    /** `set(key, val, ex, ttl)`: stores under `ttl`; `ex` is ignored. */
    method Set(key: string, val: Value, ex: int, ttl: int, now: nat) returns (r: string)
      modifies this
      ensures r == "ok"
      ensures table == Stored(old(table), key, val, ttl, now)
    {
      table := table[key := Wrap(val, ttl, now)];
      r := "ok";
    }

    method Get(key: string, now: nat) returns (r: Option<Value>)
      ensures r == Lookup(table, key, now)
    {
      if Live(table, key, now) {
        r := Some(table[key].value);
      } else {
        r := None;
      }
    }

    method Ttl(key: string, now: nat) returns (r: int)
      ensures r == TtlCode(table, key, now)
    {
      var ttl := GetTtl(table, key, now);
      if ttl.Some? && ttl.value != 0 {
        r := RoundSeconds(ttl.value - now);
      } else if ttl.Some? {
        r := -1;
      } else {
        r := -2;
      }
    }

    method Incr(key: string, now: nat) returns (count: int)
      modifies this
      ensures Bump(count, table) == Incremented(old(table), key, now)
    {
      var keyTtl := GetTtl(table, key, now);
      // take: read the live value and remove the key
      var taken := if Live(table, key, now) then Some(table[key].value) else None;
      table := table - {key};
      var prev := if taken.Some? then CountOf(taken.value) else 0;
      var expireAt := if taken.Some? then ExpireAtOf(taken.value) else 0;
      count := if prev != 0 then prev + 1 else 1;
      var seconds := 0;
      if expireAt == 0 {
        expireAt := keyTtl.GetOr(0);
      }
      if expireAt != 0 {
        seconds := RoundSeconds(expireAt - now);
      }
      if (expireAt != 0 && seconds > 0) || expireAt == 0 {
        table := table[key := Wrap(Record(count, expireAt), seconds, now)];
      }
    }

    method Expire(key: string, seconds: int, now: nat) returns (found: bool)
      modifies this
      ensures Retime(found, table) == Retimed(old(table), key, seconds, now)
    {
      found := Live(table, key, now);
      if found {
        if seconds >= 0 {
          table := table[key := Wrap(table[key].value, seconds, now)];
        } else {
          table := table - {key};
        }
      }
    }
  }
}
