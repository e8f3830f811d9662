/** API-key authentication through the Redis cache (`AuthMiddleware` in
    server/internal/ingestion/middleware.go): how stale an accepted key can be. */
module ApiKeyCache {
  import opened Sequences

  const TTL := 300   // seconds: cacheTTL

  /** A key as PostgreSQL holds it and as it is cached. Lookups are by key hash. */
  datatype ApiKey = ApiKey(revokedAt: Option<int>, canWrite: bool)

  /** A cache entry; `readAt` is when its value was read from PostgreSQL (the code does not store it). */
  datatype Entry = Entry(key: ApiKey, readAt: int, expires: int)

  datatype Verdict = Accepted | Unauthorized | Forbidden | ServerError

  function Judge(key: ApiKey): Verdict {
    if key.revokedAt.Some? then Unauthorized else if !key.canWrite then Forbidden else Accepted
  }

  /** GET: an entry past its time to live reads as absent. */
  function CacheGet(cache: map<string, Entry>, hash: string, now: int): Option<Entry> {
    if hash in cache && now < cache[hash].expires then Some(cache[hash]) else None
  }

  /** Which of the three remote calls of one request succeed. */
  datatype Remote = Remote(getOk: bool, storeOk: bool, setOk: bool)

  /** The decision as one atomic step: the cache after the request and its verdict. */
  function Authenticate(cache: map<string, Entry>, store: map<string, ApiKey>, hash: string, now: int, net: Remote)
    : (map<string, Entry>, Verdict)
  {
    var hit := if net.getOk then CacheGet(cache, hash, now) else None;
    if hit.Some? then (cache, Judge(hit.value.key))
    else if !net.storeOk then (cache, ServerError)
    else if hash !in store then (cache, Unauthorized)
    else (if net.setOk then cache[hash := Entry(store[hash], now, now + TTL)] else cache, Judge(store[hash]))
  }

  class AuthMiddleware {
    var cache: map<string, Entry>
    var store: map<string, ApiKey>

    constructor (store: map<string, ApiKey>)
      ensures this.store == store && cache == map[]
    {
      this.store, cache := store, map[];
    }

    method Handle(hash: string, now: int, net: Remote) returns (verdict: Verdict)
      modifies this`cache
      ensures (cache, verdict) == Authenticate(old(cache), store, hash, now, net)
    {
      var apiKey: Option<ApiKey> := None;
      if net.getOk && hash in cache && now < cache[hash].expires {
        apiKey := Some(cache[hash].key);
      }
      if apiKey.None? {
        if !net.storeOk {
          return ServerError;
        }
        if hash !in store {
          return Unauthorized;
        }
        apiKey := Some(store[hash]);
        if net.setOk {
          cache := cache[hash := Entry(store[hash], now, now + TTL)];
        }
      }
      if apiKey.value.revokedAt.Some? {
        return Unauthorized;
      }
      if !apiKey.value.canWrite {
        return Forbidden;
      }
      return Accepted;
    }
  }

  // ---------------------------------------------------------------- runs with slow requests

  /** A request between its store read and its cache write. */
  datatype Lookup = Lookup(hash: string, key: ApiKey, readAt: int, finished: bool)

  /** One accepted request, the key it was judged by and when that had been read from the store. */
  datatype Acceptance = Acceptance(hash: string, key: ApiKey, at: int, readAt: int)

  datatype State = State(
    now: int, store: map<string, ApiKey>, cache: map<string, Entry>,
    lookups: seq<Lookup>, accepted: seq<Acceptance>)

  datatype Step =
    | Tick(seconds: nat)
    | Create(hash: string, key: ApiKey)
    | Revoke(hash: string)
    | Evict(hash: string)             // DEL, or eviction by Redis
    | Hit(hash: string)
    | Read(hash: string)              // miss (or cache failure): read the store
    | Write(i: nat, setOk: bool)      // cache the value (if the write succeeds) and decide

  /** `delay` bounds the time between a request's store read and its cache write. */
  predicate Enabled(s: State, step: Step, delay: nat) {
    match step
    case Tick(_) => true
    case Create(hash, key) => hash !in s.store && key.revokedAt.None?
    case Revoke(hash) => hash in s.store && s.store[hash].revokedAt.None?
    case Evict(_) => true
    case Hit(hash) => CacheGet(s.cache, hash, s.now).Some?
    case Read(hash) => hash in s.store
    case Write(i, _) => i < |s.lookups| && !s.lookups[i].finished && s.now <= s.lookups[i].readAt + delay
  }

  function Accept(s: State, hash: string, key: ApiKey, readAt: int): seq<Acceptance> {
    if Judge(key) == Accepted then s.accepted + [Acceptance(hash, key, s.now, readAt)] else s.accepted
  }

  function Do(s: State, step: Step, delay: nat): State
    requires Enabled(s, step, delay)
  {
    match step
    case Tick(n) => s.(now := s.now + n)
    case Create(hash, key) => s.(store := s.store[hash := key])
    case Revoke(hash) => s.(store := s.store[hash := s.store[hash].(revokedAt := Some(s.now))])
    case Evict(hash) => s.(cache := s.cache - {hash})
    case Hit(hash) => s.(accepted := Accept(s, hash, s.cache[hash].key, s.cache[hash].readAt))
    case Read(hash) => s.(lookups := s.lookups + [Lookup(hash, s.store[hash], s.now, false)])
    case Write(i, setOk) =>
      var l := s.lookups[i];
      s.(lookups := s.lookups[i := l.(finished := true)],
         cache := if setOk then s.cache[l.hash := Entry(l.key, l.readAt, s.now + TTL)] else s.cache,
         accepted := Accept(s, l.hash, l.key, l.readAt))
  }

  ghost predicate Next(s: State, s': State, delay: nat) {
    exists step :: Enabled(s, step, delay) && s' == Do(s, step, delay)
  }

  ghost predicate Run(run: seq<State>, delay: nat) {
    && run != [] && run[0] == State(run[0].now, map[], map[], [], [])
    && forall i :: 0 <= i < |run| - 1 ==> Next(run[i], run[i + 1], delay)
  }

  /** A value read at `readAt` is no fresher than the store: if it says "not revoked" it was read before
      the revocation. Scopes do not change. */
  ghost predicate ReadBeforeRevocation(s: State, hash: string, key: ApiKey, readAt: int) {
    && hash in s.store && readAt <= s.now && key.canWrite == s.store[hash].canWrite
    && (key.revokedAt.None? && s.store[hash].revokedAt.Some? ==> readAt <= s.store[hash].revokedAt.value)
  }

  ghost predicate Inv(s: State, delay: nat) {
    && (forall h :: h in s.store && s.store[h].revokedAt.Some? ==> s.store[h].revokedAt.value <= s.now)
    && (forall h :: h in s.cache ==> ReadBeforeRevocation(s, h, s.cache[h].key, s.cache[h].readAt) &&
                                     s.cache[h].expires <= s.cache[h].readAt + delay + TTL)
    && (forall i :: 0 <= i < |s.lookups| ==> ReadBeforeRevocation(s, s.lookups[i].hash, s.lookups[i].key, s.lookups[i].readAt))
    && (forall i :: 0 <= i < |s.accepted| ==>
          ReadBeforeRevocation(s, s.accepted[i].hash, s.accepted[i].key, s.accepted[i].readAt) &&
          s.accepted[i].key == ApiKey(None, true) &&
          s.accepted[i].at < s.accepted[i].readAt + delay + TTL)
  }

  lemma WriteKeepsInv(s: State, i: nat, setOk: bool, delay: nat)
    requires Inv(s, delay) && Enabled(s, Write(i, setOk), delay)
    ensures Inv(Do(s, Write(i, setOk), delay), delay)
  {
  }

  /** The store changes, or the clock; what was read before stays explained. */
  lemma StoreKeepsInv(s: State, step: Step, delay: nat)
    requires Inv(s, delay) && Enabled(s, step, delay)
    requires step.Tick? || step.Create?
    ensures Inv(Do(s, step, delay), delay)
  {
  }

  lemma RevokeKeepsInv(s: State, hash: string, delay: nat)
    requires Inv(s, delay) && Enabled(s, Revoke(hash), delay)
    ensures Inv(Do(s, Revoke(hash), delay), delay)
  {
  }

  lemma StepKeepsInv(s: State, step: Step, delay: nat)
    requires Inv(s, delay) && Enabled(s, step, delay)
    ensures Inv(Do(s, step, delay), delay)
  {
    match step {
      case Write(i, setOk) => WriteKeepsInv(s, i, setOk, delay);
      case Revoke(hash) => RevokeKeepsInv(s, hash, delay);
      case Evict(_) =>
      case Hit(_) =>
      case Read(_) =>
      case _ => StoreKeepsInv(s, step, delay);
    }
  }

  lemma {:induction false} RunKeepsInv(run: seq<State>, delay: nat)
    requires Run(run, delay)
    ensures Inv(run[|run| - 1], delay)
    decreases |run|
  {
    var n := |run| - 1;
    if n > 0 {
      RunKeepsInv(run[..n], delay);
      assert run[..n][n - 1] == run[n - 1];
      assert Next(run[n - 1], run[n - 1 + 1], delay);
      var step :| Enabled(run[n - 1], step, delay) && run[n] == Do(run[n - 1], step, delay);
      StepKeepsInv(run[n - 1], step, delay);
    }
  }

  /** Over every run: an accepted request's key has the write scope; if the key is revoked at `r`, the request
      was judged by a value read no later than `r`, and came before `r` + five minutes (300 seconds) + the longest
      read-to-write delay. With the decision as one atomic step (`delay` 0) a revoked key is rejected from
      `r` + five minutes on. */
  lemma BoundedStaleness(run: seq<State>, delay: nat, i: nat)
    requires Run(run, delay) && i < |run[|run| - 1].accepted|
    ensures var s, a := run[|run| - 1], run[|run| - 1].accepted[i];
            && a.hash in s.store && s.store[a.hash].canWrite && a.key == ApiKey(None, true)
            && (s.store[a.hash].revokedAt.Some? ==>
                  a.readAt <= s.store[a.hash].revokedAt.value && a.at < s.store[a.hash].revokedAt.value + delay + 300)
  {
    RunKeepsInv(run, delay);
  }

  /** Entries are written only on a miss, and a hit leaves its entry's expiry alone. */
  lemma HitsNeverExtend(cache: map<string, Entry>, store: map<string, ApiKey>, hash: string, now: int, net: Remote)
    ensures var cache' := Authenticate(cache, store, hash, now, net).0;
            && (net.getOk && CacheGet(cache, hash, now).Some? ==> cache' == cache)
            && (cache' != cache ==> hash in store && cache' == cache[hash := Entry(store[hash], now, now + 300)])
  {
  }

  /** The key a request is judged by: the cached one while it lives, else the stored one. */
  function JudgedBy(cache: map<string, Entry>, store: map<string, ApiKey>, hash: string, now: int, net: Remote): Option<ApiKey> {
    if net.getOk && hash in cache && now < cache[hash].expires then Some(cache[hash].key)
    else if net.storeOk && hash in store then Some(store[hash])
    else None
  }

  /** A request is accepted exactly when that key is not revoked and has the write scope, and forbidden exactly
      when it lacks the scope alone; a server error needs a miss and a failing store. */
  lemma VerdictIff(cache: map<string, Entry>, store: map<string, ApiKey>, hash: string, now: int, net: Remote)
    ensures var verdict, key := Authenticate(cache, store, hash, now, net).1, JudgedBy(cache, store, hash, now, net);
            && (verdict == Accepted <==> key.Some? && key.value.revokedAt == None && key.value.canWrite)
            && (verdict == Forbidden <==> key.Some? && key.value.revokedAt == None && !key.value.canWrite)
            && (verdict == ServerError <==> key.None? && !net.storeOk)
  {
  }

  /** The atomic decision is a path of the step system with no delay: a hit, or a read and its write. */
  lemma AtomicDecisionIsAPath(s: State, hash: string, net: Remote) returns (s': State)
    ensures s'.store == s.store && s'.now == s.now
    ensures s'.cache == Authenticate(s.cache, s.store, hash, s.now, net).0
    ensures Authenticate(s.cache, s.store, hash, s.now, net).1 == Accepted <==> |s'.accepted| > |s.accepted|
    ensures s' == s || Next(s, s', 0) || exists mid :: Next(s, mid, 0) && Next(mid, s', 0)
  {
    if net.getOk && CacheGet(s.cache, hash, s.now).Some? {
      s' := Do(s, Hit(hash), 0);
    } else if net.storeOk && hash in s.store {
      var mid := Do(s, Read(hash), 0);
      assert Enabled(s, Read(hash), 0) && Next(s, mid, 0);
      var write := Write(|s.lookups|, net.setOk);
      s' := Do(mid, write, 0);
      assert Enabled(mid, write, 0) && Next(mid, s', 0);
    } else {
      s' := s;
    }
  }
}
