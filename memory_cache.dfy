/** The backend's in-memory key/value cache with per-entry expiry, the
    session and stream caches built on it, and the rate limiter that counts
    requests in it. The clock (`Date.now()`) is the `now` parameter, in
    milliseconds; TTLs and windows are in seconds. */
module Cache {
  import opened Wrappers
  import opened Text

  /** A stored value and, optionally, the instant after which it is gone. */
  datatype Entry = Entry(value: string, expiresAt: Option<int>)

  /** `entry.expiresAt && now > entry.expiresAt`: an expiry of 0 is falsy
      and never fires. */
  predicate Expired(e: Entry, now: int) {
    e.expiresAt.Some? && e.expiresAt.value != 0 && now > e.expiresAt.value
  }

  /** What `get` returns. */
  function Lookup(m: map<string, Entry>, key: string, now: int): (r: Option<string>)
    ensures r.Some? <==> key in m && !Expired(m[key], now)
    ensures r.Some? ==> r.value == m[key].value
  {
    if key in m && !Expired(m[key], now) then Some(m[key].value) else None
  }

  /** The table after a read of `key`: an expired entry is deleted, nothing
      else changes. */
  function AfterRead(m: map<string, Entry>, key: string, now: int): (r: map<string, Entry>)
    ensures forall k :: k in r <==> k in m && (k == key ==> !Expired(m[k], now))
    ensures forall k :: k in r ==> r[k] == m[k]
  {
    if key in m && Expired(m[key], now) then m - {key} else m
  }

  /** Reading twice is reading once: the second read finds the same value
      and deletes nothing more. */
  lemma ReadIsStable(m: map<string, Entry>, key: string, now: int)
    ensures Lookup(AfterRead(m, key, now), key, now) == Lookup(m, key, now)
    ensures AfterRead(AfterRead(m, key, now), key, now) == AfterRead(m, key, now)
  {
  }

  /** `ttl ? now + ttl * 1000 : undefined` */
  function ExpiryFor(ttl: Option<int>, now: int): (r: Option<int>)
    ensures r.Some? <==> ttl.Some? && ttl.value != 0
    ensures r.Some? ==> r.value == now + ttl.value * 1000
  {
    if ttl.Some? && ttl.value != 0 then Some(now + ttl.value * 1000) else None
  }

  /** A value stored with a positive TTL, or none, is read back until its
      TTL has run out, and a write to one key leaves every other key's
      reading alone. */
  lemma SetThenLookup(m: map<string, Entry>, key: string, value: string, ttl: Option<int>, now: int, later: int, other: string)
    requires ttl.None? || ttl.value > 0
    requires later <= now + (if ttl.Some? then ttl.value * 1000 else 0) || ttl.None?
    requires other != key
    ensures Lookup(m[key := Entry(value, ExpiryFor(ttl, now))], key, later) == Some(value)
    ensures Lookup(m[key := Entry(value, ExpiryFor(ttl, now))], other, later) == Lookup(m, other, later)
  {
  }

  /** `current ? parseInt(current) + 1 : 1`: the empty string counts as
      absent. */
  function IncrementValue(current: Option<string>): (r: Num)
    ensures current.None? || current.value == "" ==> r == Finite(1)
    ensures current.Some? && current.value != "" ==> r == AddOne(ParseInt(current.value))
  {
    if current.Some? && current.value != "" then AddOne(ParseInt(current.value)) else Finite(1)
  }

  /** A counter written by `increment` is read back by the next one as the
      same number, so successive increments count up by one. */
  lemma {:induction false} IncrementCounts(n: Num)
    ensures IncrementValue(Some(NumToString(n))) == AddOne(n)
  {
    ParseNumToString(n);
    match n
    case Finite(i) => assert |IntToString(i)| > 0;
    case NaN =>
  }

  /** `increment` as written: the new count is stored with no expiry. */
  function Incremented(m: map<string, Entry>, key: string, now: int): (r: (map<string, Entry>, Num))
    ensures r.1 == IncrementValue(Lookup(m, key, now))
    ensures r.0 == m[key := Entry(NumToString(r.1), None)]
  {
    var n := IncrementValue(Lookup(m, key, now));
    (m[key := Entry(NumToString(n), None)], n)
  }

  /** `increment` keeping the expiry of the live entry it counts on (what a
      Redis INCR does). */
  function IncrementedKeepingExpiry(m: map<string, Entry>, key: string, now: int): (r: (map<string, Entry>, Num))
    ensures r.1 == IncrementValue(Lookup(m, key, now))
    ensures key in r.0 && r.0[key].value == NumToString(r.1)
    ensures r.0[key].expiresAt == if Lookup(m, key, now).Some? then m[key].expiresAt else None
    ensures forall k :: k != key ==> (k in r.0 <==> k in m) && (k in m ==> r.0[k] == m[k])
  {
    var n := IncrementValue(Lookup(m, key, now));
    var expiry := if key in m && !Expired(m[key], now) then m[key].expiresAt else None;
    (m[key := Entry(NumToString(n), expiry)], n)
  }

  /** `expire`: an entry that is present (expired or not) gets a new expiry;
      a missing key is left missing. */
  function Expiring(m: map<string, Entry>, key: string, seconds: int, now: int): (r: map<string, Entry>)
    ensures r.Keys == m.Keys
    ensures key in m ==> r[key] == Entry(m[key].value, Some(now + seconds * 1000))
    ensures forall k :: k in m && k != key ==> r[k] == m[k]
  {
    if key in m then m[key := m[key].(expiresAt := Some(now + seconds * 1000))] else m
  }

  class MemoryCache {
    var entries: map<string, Entry>

    constructor()
      ensures entries == map[]
    {
      entries := map[];
    }

    method Get(key: string, now: int) returns (r: Option<string>)
      modifies this
      ensures r == Lookup(old(entries), key, now)
      ensures entries == AfterRead(old(entries), key, now)
    {
      if key !in entries {
        return None;
      }
      var entry := entries[key];
      if entry.expiresAt.Some? && entry.expiresAt.value != 0 && now > entry.expiresAt.value {
        entries := entries - {key};
        return None;
      }
      r := Some(entry.value);
    }

    method Set(key: string, value: string, ttl: Option<int>, now: int)
      modifies this
      ensures entries == old(entries)[key := Entry(value, ExpiryFor(ttl, now))]
    {
      var expiresAt := if ttl.Some? && ttl.value != 0 then Some(now + ttl.value * 1000) else None;
      entries := entries[key := Entry(value, expiresAt)];
    }

    method Del(key: string)
      modifies this
      ensures entries == old(entries) - {key}
    {
      entries := entries - {key};
    }

    /** True exactly when `get` would return a value, with the same
        deletion of an expired entry. */
    method Exists(key: string, now: int) returns (b: bool)
      modifies this
      ensures b <==> Lookup(old(entries), key, now).Some?
      ensures entries == AfterRead(old(entries), key, now)
    {
      if key !in entries {
        return false;
      }
      var entry := entries[key];
      if entry.expiresAt.Some? && entry.expiresAt.value != 0 && now > entry.expiresAt.value {
        entries := entries - {key};
        return false;
      }
      b := true;
    }

    /** Read, add one, and write back without a TTL. */
    method Increment(key: string, now: int) returns (n: Num)
      modifies this
      ensures (entries, n) == Incremented(old(entries), key, now)
    {
      var current := Get(key, now);
      n := if current.Some? && current.value != "" then AddOne(ParseInt(current.value)) else Finite(1);
      Set(key, NumToString(n), None, now);
      assert entries == old(entries)[key := Entry(NumToString(n), None)];
    }

    /** Read, add one, and write back keeping the live entry's expiry. */
    method IncrementKeepingExpiry(key: string, now: int) returns (n: Num)
      modifies this
      ensures (entries, n) == IncrementedKeepingExpiry(old(entries), key, now)
    {
      var expiry := if key in entries && !Expired(entries[key], now) then entries[key].expiresAt else None;
      var current := Get(key, now);
      n := if current.Some? && current.value != "" then AddOne(ParseInt(current.value)) else Finite(1);
      entries := entries[key := Entry(NumToString(n), expiry)];
      assert entries == old(entries)[key := Entry(NumToString(n), expiry)];
    }

    method Expire(key: string, seconds: int, now: int)
      modifies this
      ensures entries == Expiring(old(entries), key, seconds, now)
    {
      if key in entries {
        entries := entries[key := entries[key].(expiresAt := Some(now + seconds * 1000))];
      }
    }

    method Clear()
      modifies this
      ensures entries == map[] && Size() == 0
    {
      entries := map[];
    }

    /** The number of entries, expired ones included until a read removes
        them. */
    function Size(): (r: nat)
      reads this
      ensures r == 0 <==> entries == map[]
    {
      |entries.Keys|
    }
  }

  // ----- session and stream caches -------------------------------------------

  const SessionTtl: int := 3600
  const StreamTtl: int := 1800

  function SessionKey(userId: string): string { "session:" + userId }
  function StreamKey(songId: string): string { "stream:" + songId }
  function RateLimitKey(identifier: string): string { "rate_limit:" + identifier }

  /** The three key families never collide, and each names its identifier
      uniquely. */
  lemma KeyFamiliesAreDisjoint(a: string, b: string)
    ensures SessionKey(a) != StreamKey(b) && SessionKey(a) != RateLimitKey(b) && StreamKey(a) != RateLimitKey(b)
    ensures SessionKey(a) == SessionKey(b) ==> a == b
    ensures StreamKey(a) == StreamKey(b) ==> a == b
    ensures RateLimitKey(a) == RateLimitKey(b) ==> a == b
  {
    assert SessionKey(a)[1] == 'e' && StreamKey(b)[1] == 't';
    assert SessionKey(a)[0] == 's' && RateLimitKey(b)[0] == 'r' && StreamKey(a)[0] == 's';
    if SessionKey(a) == SessionKey(b) {
      assert a == SessionKey(a)[8..];
    }
    if StreamKey(a) == StreamKey(b) {
      assert a == StreamKey(a)[7..];
    }
    if RateLimitKey(a) == RateLimitKey(b) {
      assert a == RateLimitKey(a)[11..];
    }
  }

  /** The TTL a session or stream write uses: the caller's, or the default
      when the argument is left out (an explicit 0 means no expiry). */
  function TtlOrDefault(ttl: Option<int>, default: int): int {
    ttl.GetOr(default)
  }

  /** `setSession(userId, data, ttl = 3600)`, with the data already
      serialised. */
  method SetSession(cache: MemoryCache, userId: string, data: string, ttl: Option<int>, now: int)
    modifies cache
    ensures cache.entries == old(cache.entries)[SessionKey(userId) := Entry(data, ExpiryFor(Some(TtlOrDefault(ttl, SessionTtl)), now))]
  {
    cache.Set(SessionKey(userId), data, Some(TtlOrDefault(ttl, SessionTtl)), now);
  }

  /** `getSession`: the stored text, or nothing when it is missing, expired
      or empty. */
  method GetSession(cache: MemoryCache, userId: string, now: int) returns (data: Option<string>)
    modifies cache
    ensures var v := Lookup(old(cache.entries), SessionKey(userId), now);
      data == if v.Some? && v.value != "" then v else None
    ensures cache.entries == AfterRead(old(cache.entries), SessionKey(userId), now)
  {
    var v := cache.Get(SessionKey(userId), now);
    data := if v.Some? && v.value != "" then v else None;
  }

  method DeleteSession(cache: MemoryCache, userId: string)
    modifies cache
    ensures cache.entries == old(cache.entries) - {SessionKey(userId)}
  {
    cache.Del(SessionKey(userId));
  }

  /** `cacheStreamData(songId, data, ttl = 1800)` */
  method CacheStreamData(cache: MemoryCache, songId: string, data: string, ttl: Option<int>, now: int)
    modifies cache
    ensures cache.entries == old(cache.entries)[StreamKey(songId) := Entry(data, ExpiryFor(Some(TtlOrDefault(ttl, StreamTtl)), now))]
  {
    cache.Set(StreamKey(songId), data, Some(TtlOrDefault(ttl, StreamTtl)), now);
  }

  method GetStreamData(cache: MemoryCache, songId: string, now: int) returns (data: Option<string>)
    modifies cache
    ensures var v := Lookup(old(cache.entries), StreamKey(songId), now);
      data == if v.Some? && v.value != "" then v else None
    ensures cache.entries == AfterRead(old(cache.entries), StreamKey(songId), now)
  {
    var v := cache.Get(StreamKey(songId), now);
    data := if v.Some? && v.value != "" then v else None;
  }

  // ----- rate limiting ---------------------------------------------------------

  /** `current <= limit`; NaN compares false. */
  predicate WithinLimit(n: Num, limit: int) {
    n.Finite? && n.n <= limit
  }

  /** One `checkLimit` call as written: count, start the window on the
      first request, and allow while the count is within the limit. */
  function LimitStep(m: map<string, Entry>, key: string, limit: int, window: int, now: int): (r: (map<string, Entry>, bool))
    ensures var (m1, n) := Incremented(m, key, now);
      && r.1 == WithinLimit(n, limit)
      && r.0 == if n == Finite(1) then Expiring(m1, key, window, now) else m1
  {
    var (m1, n) := Incremented(m, key, now);
    (if n == Finite(1) then Expiring(m1, key, window, now) else m1, WithinLimit(n, limit))
  }

  /** The same step over the increment that keeps the window's expiry. */
  function LimitStepKeepingWindow(m: map<string, Entry>, key: string, limit: int, window: int, now: int): (r: (map<string, Entry>, bool))
    ensures var (m1, n) := IncrementedKeepingExpiry(m, key, now);
      && r.1 == WithinLimit(n, limit)
      && r.0 == if n == Finite(1) then Expiring(m1, key, window, now) else m1
  {
    var (m1, n) := IncrementedKeepingExpiry(m, key, now);
    (if n == Finite(1) then Expiring(m1, key, window, now) else m1, WithinLimit(n, limit))
  }

  /** The answers of successive calls at the given instants. */
  function LimitRun(m: map<string, Entry>, key: string, limit: int, window: int, times: seq<int>): (r: seq<bool>)
    ensures |r| == |times|
    decreases |times|
  {
    if times == [] then []
    else
      var (m1, ok) := LimitStep(m, key, limit, window, times[0]);
      [ok] + LimitRun(m1, key, limit, window, times[1..])
  }

  /** As written: once a call is refused (with a limit of at least 1), the
      counter has been rewritten without expiry, so the next call is
      refused too and leaves it without expiry again, whatever the time. */
  lemma RefusedStaysRefused(m: map<string, Entry>, key: string, limit: int, window: int, now: int, later: int)
    requires limit >= 1
    requires !LimitStep(m, key, limit, window, now).1
    ensures var m1 := LimitStep(m, key, limit, window, now).0;
      && key in m1 && m1[key].expiresAt == None
      && !LimitStep(m1, key, limit, window, later).1
      && LimitStep(m1, key, limit, window, later).0[key].expiresAt == None
  {
    var n := IncrementValue(Lookup(m, key, now));
    var m1 := LimitStep(m, key, limit, window, now).0;
    assert n != Finite(1);
    assert m1 == m[key := Entry(NumToString(n), None)];
    assert Lookup(m1, key, later) == Some(NumToString(n));
    IncrementCounts(n);
  }

  /** As written, a refused identifier is refused on every later call. */
  lemma {:induction false} RefusedForever(m: map<string, Entry>, key: string, limit: int, window: int, now: int, times: seq<int>)
    requires limit >= 1
    requires !LimitStep(m, key, limit, window, now).1
    ensures forall i :: 0 <= i < |times| ==> !LimitRun(LimitStep(m, key, limit, window, now).0, key, limit, window, times)[i]
    decreases |times|
  {
    if times != [] {
      var m1 := LimitStep(m, key, limit, window, now).0;
      RefusedStaysRefused(m, key, limit, window, now, times[0]);
      RefusedForever(m1, key, limit, window, times[0], times[1..]);
    }
  }

  /** With the window kept: once the window's expiry has passed, the next
      call starts a new window and is allowed. */
  lemma WindowReopens(m: map<string, Entry>, key: string, limit: int, window: int, now: int)
    requires limit >= 1
    requires key in m && Expired(m[key], now)
    ensures LimitStepKeepingWindow(m, key, limit, window, now).1
    ensures LimitStepKeepingWindow(m, key, limit, window, now).0[key] == Entry("1", Some(now + window * 1000))
  {
    assert IntToString(1) == "1";
  }

  /** With the window kept, a counted call inside a live window leaves the
      window's expiry where the first call set it. */
  lemma WindowIsKept(m: map<string, Entry>, key: string, limit: int, window: int, now: int)
    requires key in m && !Expired(m[key], now)
    requires IncrementValue(Some(m[key].value)) != Finite(1)
    ensures LimitStepKeepingWindow(m, key, limit, window, now).0[key].expiresAt == m[key].expiresAt
  {
  }

  /** The first call on a fresh key is allowed and opens the window. */
  lemma FirstCallOpensWindow(m: map<string, Entry>, key: string, window: int, now: int)
    requires key !in m
    ensures LimitStep(m, key, 1, window, now) == (m[key := Entry("1", Some(now + window * 1000))], true)
    ensures LimitStepKeepingWindow(m, key, 1, window, now) == (m[key := Entry("1", Some(now + window * 1000))], true)
  {
    assert IntToString(1) == "1";
    var e := Entry("1", Some(now + window * 1000));
    assert Incremented(m, key, now) == (m[key := Entry("1", None)], Finite(1));
    assert Expiring(m[key := Entry("1", None)], key, window, now) == m[key := Entry("1", None)][key := e] == m[key := e];
    assert IncrementedKeepingExpiry(m, key, now) == (m[key := Entry("1", None)], Finite(1));
  }

  /** Limit 1, a 60-second window: a first call at 0 ms is allowed and a
      second at 1 ms refused; two minutes later, long after the window,
      the call as written is still refused. */
  lemma RateLimitTraceAsWritten(key: string)
    ensures var (m1, ok1) := LimitStep(map[], key, 1, 60, 0);
      var (m2, ok2) := LimitStep(m1, key, 1, 60, 1);
      var (m3, ok3) := LimitStep(m2, key, 1, 60, 120000);
      ok1 && !ok2 && !ok3
  {
    FirstCallOpensWindow(map[], key, 60, 0);
    var m1 := map[key := Entry("1", Some(60000))];
    IncrementCounts(Finite(1));
    assert Lookup(m1, key, 1) == Some("1") == Some(NumToString(Finite(1)));
    assert !LimitStep(m1, key, 1, 60, 1).1;
    RefusedStaysRefused(m1, key, 1, 60, 1, 120000);
  }

  /** The same calls with the window kept: the third call is allowed. */
  lemma RateLimitTraceKeepingWindow(key: string)
    ensures var (m1, ok1) := LimitStepKeepingWindow(map[], key, 1, 60, 0);
      var (m2, ok2) := LimitStepKeepingWindow(m1, key, 1, 60, 1);
      var (m3, ok3) := LimitStepKeepingWindow(m2, key, 1, 60, 120000);
      ok1 && !ok2 && ok3
  {
    FirstCallOpensWindow(map[], key, 60, 0);
    var m1 := map[key := Entry("1", Some(60000))];
    IncrementCounts(Finite(1));
    assert Lookup(m1, key, 1) == Some("1") == Some(NumToString(Finite(1)));
    var m2 := LimitStepKeepingWindow(m1, key, 1, 60, 1).0;
    assert m2[key].expiresAt == Some(60000);
    WindowReopens(m2, key, 1, 60, 120000);
  }

  /** `checkLimit` as written. */
  method CheckLimitAsWritten(cache: MemoryCache, identifier: string, limit: int, window: int, now: int) returns (allowed: bool)
    modifies cache
    ensures (cache.entries, allowed) == LimitStep(old(cache.entries), RateLimitKey(identifier), limit, window, now)
  {
    var key := RateLimitKey(identifier);
    var current := cache.Increment(key, now);
    if current == Finite(1) {
      cache.Expire(key, window, now);
    }
    allowed := current.Finite? && current.n <= limit;
  }

  /** `checkLimit` over the increment that keeps the window. */
  method CheckLimit(cache: MemoryCache, identifier: string, limit: int, window: int, now: int) returns (allowed: bool)
    modifies cache
    ensures (cache.entries, allowed) == LimitStepKeepingWindow(old(cache.entries), RateLimitKey(identifier), limit, window, now)
  {
    var key := RateLimitKey(identifier);
    var current := cache.IncrementKeepingExpiry(key, now);
    if current == Finite(1) {
      cache.Expire(key, window, now);
    }
    allowed := current.Finite? && current.n <= limit;
  }
}
