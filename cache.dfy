/**
 * `EnhancedCache`: a layered cache (Redis, an in-process dictionary, a
 * backup file) chosen by strategy, the `smart_cache` decorator built on it,
 * and the `CacheStats` counters. The in-process layer is modelled in full;
 * the Redis and file layers are reduced to what they answered, passed in
 * as parameters. `datetime.now()` is the parameter `now`, in seconds.
 */
module Caching {
  import opened Wrappers

  datatype Strategy = RedisOnly | MemoryOnly | Hybrid | FileBackup

  /** Whether `set` and `get` use the in-process layer. */
  predicate UsesMemory(s: Strategy) {
    s == MemoryOnly || s == Hybrid
  }

  /** The key the Redis and in-process layers use: `f"{namespace}:{key}"`. */
  function CacheKey(namespace: string, key: string): (k: string)
    ensures |k| == |namespace| + 1 + |key| && k[|namespace|] == ':'
  {
    namespace + ":" + key
  }

  /** Within one namespace, different keys never share an entry. */
  lemma CacheKeySeparates(namespace: string, key1: string, key2: string)
    requires key1 != key2
    ensures CacheKey(namespace, key1) != CacheKey(namespace, key2)
  {
    var k1, k2 := CacheKey(namespace, key1), CacheKey(namespace, key2);
    if |key1| == |key2| {
      var i :| 0 <= i < |key1| && key1[i] != key2[i];
      assert k1[|namespace| + 1 + i] == key1[i];
      assert k2[|namespace| + 1 + i] == key2[i];
    }
  }

  /** Across namespaces the separator does not separate: a colon in a namespace or a key can make two pairs meet. */
  lemma CacheKeyCanCollide()
    ensures CacheKey("a:b", "c") == CacheKey("a", "b:c")
  {
  }

  /** An in-process entry: the value stored (Python `None` is `None`) and when it expires. */
  datatype Entry<V> = Entry(data: Option<V>, expiresAt: real)

  /** What a layer answered: a value (possibly Python `None`), or nothing. */
  datatype Lookup<V> = Hit(data: Option<V>) | Miss

  // ---------------------------------------------------------------------------
  // The operations on the in-process dictionary

  /** The dictionary after `set`: a new entry expiring `timeout` seconds from now, when the strategy uses it. */
  function Stored<V>(m: map<string, Entry<V>>, s: Strategy, k: string, data: Option<V>, timeout: real, now: real): map<string, Entry<V>> {
    if UsesMemory(s) then m[k := Entry(data, now + timeout)] else m
  }

  /**
   * `set`'s answer: whether at least one layer stored the value. The
   * in-process layer always does when the strategy uses it; `redisStored` and
   * `fileStored` say whether the Redis and file writes were attempted and
   * succeeded.
   */
  function SetAnswer(s: Strategy, redisStored: bool, fileStored: bool): (ok: bool) {
    (s != MemoryOnly && redisStored) || UsesMemory(s) || (s == FileBackup && fileStored)
  }

  /** `set`'s answer, case by case. */
  lemma SetAnswerCases(s: Strategy, redisStored: bool, fileStored: bool)
    ensures UsesMemory(s) ==> SetAnswer(s, redisStored, fileStored)
    ensures s == RedisOnly ==> (SetAnswer(s, redisStored, fileStored) <==> redisStored)
    ensures s == FileBackup ==> (SetAnswer(s, redisStored, fileStored) <==> redisStored || fileStored)
  {
  }

  /**
   * `get`: Redis first (unless MEMORY_ONLY), then the in-process entry, which
   * answers while `now <= expires_at` and is deleted once past it, then the
   * backup file (FILE_BACKUP only). `redisReply` is what Redis held for the
   * key (a `Miss` when it is unavailable, empty or failing); `fileReply` is
   * what an unexpired backup file held.
   */
  function Fetched<V>(m: map<string, Entry<V>>, s: Strategy, k: string, now: real,
                      redisReply: Lookup<V>, fileReply: Lookup<V>): (map<string, Entry<V>>, Option<V>)
  {
    if s != MemoryOnly && redisReply.Hit? then (m, redisReply.data)
    else
      var m' := if UsesMemory(s) && k in m && now > m[k].expiresAt then m - {k} else m;
      if UsesMemory(s) && k in m && now <= m[k].expiresAt then (m, m[k].data)
      else if s == FileBackup && fileReply.Hit? then (m', fileReply.data)
      else (m', None)
  }

  /** `delete`: the key's in-process entry goes, if there was one. */
  function Deleted<V>(m: map<string, Entry<V>>, k: string): map<string, Entry<V>> {
    m - {k}
  }

  /** What `clear_expired` leaves: the entries not yet past their expiry. */
  function Unexpired<V>(m: map<string, Entry<V>>, now: real): map<string, Entry<V>> {
    map k | k in m && now <= m[k].expiresAt :: m[k]
  }

  /**
   * A value read back from the in-process layer (Redis not answering) is
   * the value stored, up to and including the expiry instant; after it, the
   * read misses and removes the entry.
   */
  lemma GetAfterSet<V>(m: map<string, Entry<V>>, s: Strategy, k: string, data: Option<V>, timeout: real,
                       now: real, later: real, fileReply: Lookup<V>)
    requires UsesMemory(s)
    ensures var m1 := Stored(m, s, k, data, timeout, now);
      var (m2, r) := Fetched(m1, s, k, later, Miss, fileReply);
      (later <= now + timeout ==> r == data && m2 == m1)
      && (later > now + timeout ==> r == None && m2 == m1 - {k})
  {
  }

  /** Every operation on one key leaves the entries of all other keys as they were. */
  lemma OtherKeysUntouched<V>(m: map<string, Entry<V>>, s: Strategy, k: string, other: string, data: Option<V>,
                              timeout: real, now: real, redisReply: Lookup<V>, fileReply: Lookup<V>)
    requires other != k
    ensures other in Stored(m, s, k, data, timeout, now) <==> other in m
    ensures other in m ==> Stored(m, s, k, data, timeout, now)[other] == m[other]
    ensures other in Fetched(m, s, k, now, redisReply, fileReply).0 <==> other in m
    ensures other in m ==> Fetched(m, s, k, now, redisReply, fileReply).0[other] == m[other]
    ensures other in Deleted(m, k) <==> other in m
    ensures other in m ==> Deleted(m, k)[other] == m[other]
  {
  }

  /** `delete` of an absent key changes nothing, and deleting twice is deleting once. */
  lemma DeleteIdempotent<V>(m: map<string, Entry<V>>, k: string)
    ensures k !in m ==> Deleted(m, k) == m
    ensures Deleted(Deleted(m, k), k) == Deleted(m, k)
    ensures k !in Deleted(m, k)
  {
  }

  /**
   * `clear_expired` removes exactly the entries past their expiry: an entry
   * at its expiry instant survives, and the survivors are exactly the
   * entries a `get` at the same instant would still answer from.
   */
  lemma ClearExpiredExact<V>(m: map<string, Entry<V>>, s: Strategy, now: real, k: string, fileReply: Lookup<V>)
    requires UsesMemory(s)
    ensures k in Unexpired(m, now) <==> k in m && now <= m[k].expiresAt
    ensures k in Unexpired(m, now) ==> Unexpired(m, now)[k] == m[k]
    ensures k in Unexpired(m, now) <==> k in m && Fetched(m, s, k, now, Miss, fileReply) == (m, m[k].data)
  {
  }

  /** Sweeping twice at the same instant is sweeping once, and a sweep never adds entries. */
  lemma ClearExpiredIdempotent<V>(m: map<string, Entry<V>>, now: real)
    ensures Unexpired(Unexpired(m, now), now) == Unexpired(m, now)
    ensures Unexpired(m, now).Keys <= m.Keys
  {
  }

  // ---------------------------------------------------------------------------
  // smart_cache

  /**
   * One call of a `smart_cache`-wrapped function whose value would be
   * `result`: a cached value other than None is returned without calling
   * the function; otherwise the function runs and its value is stored.
   * `key` stands for the digest of the prefix, the function's name and its
   * arguments. The answer is the value and whether the function was called.
   */
  function SmartCall<V>(m: map<string, Entry<V>>, s: Strategy, key: string, timeout: real, now: real,
                        redisReply: Lookup<V>, fileReply: Lookup<V>, result: Option<V>): (map<string, Entry<V>>, Option<V>, bool)
  {
    var (m1, cached) := Fetched(m, s, CacheKey(SmartNamespace, key), now, redisReply, fileReply);
    if cached.Some? then (m1, cached, false)
    else (Stored(m1, s, CacheKey(SmartNamespace, key), result, timeout, now), result, true)
  }

  const SmartNamespace := "smart_cache"

  /**
   * A value the wrapped function returned is served from the cache, without
   * calling the function, by every call up to its expiry (Redis not
   * answering); a None result is never served and the function is called
   * again every time.
   */
  lemma SmartCacheRemembers<V>(m: map<string, Entry<V>>, s: Strategy, key: string, timeout: real, now: real,
                               later: real, fileReply: Lookup<V>, result: Option<V>, result2: Option<V>)
    requires UsesMemory(s)
    ensures var (m1, r1, called1) := SmartCall(m, s, key, timeout, now, Miss, fileReply, result);
      var (m2, r2, called2) := SmartCall(m1, s, key, timeout, later, Miss, fileReply, result2);
      (called1 && r1 == result && result.Some? && later <= now + timeout ==> !called2 && r2 == result && m2 == m1)
      && (called1 && result == None ==> called2 && r2 == result2)
  {
  }

  /** A cached value is returned as it was stored and leaves the dictionary as it was. */
  lemma SmartCacheHitSkipsCall<V>(m: map<string, Entry<V>>, s: Strategy, key: string, timeout: real, now: real,
                                  fileReply: Lookup<V>, result: Option<V>)
    requires UsesMemory(s)
    requires CacheKey(SmartNamespace, key) in m
    requires now <= m[CacheKey(SmartNamespace, key)].expiresAt && m[CacheKey(SmartNamespace, key)].data.Some?
    ensures SmartCall(m, s, key, timeout, now, Miss, fileReply, result) == (m, m[CacheKey(SmartNamespace, key)].data, false)
  {
  }

  // ---------------------------------------------------------------------------
  // The objects

  /** The module-level `_memory_cache` dictionary, shared by every `EnhancedCache`. */
  class MemoryStore<V> {
    var entries: map<string, Entry<V>>

    constructor ()
      ensures entries == map[]
    {
      entries := map[];
    }
  }

  class EnhancedCache<V> {
    const strategy: Strategy
    const memory: MemoryStore<V>

    constructor (strategy: Strategy, memory: MemoryStore<V>)
      ensures this.strategy == strategy && this.memory == memory
    {
      this.strategy := strategy;
      this.memory := memory;
    }

    method Set(key: string, data: Option<V>, timeout: real, namespace: string, now: real,
               redisStored: bool, fileStored: bool) returns (ok: bool)
      modifies memory
      ensures memory.entries == Stored(old(memory.entries), strategy, CacheKey(namespace, key), data, timeout, now)
      ensures ok == SetAnswer(strategy, redisStored, fileStored)
    {
      var cacheKey := namespace + ":" + key;
      var successCount := 0;
      if redisStored && strategy != MemoryOnly {
        successCount := successCount + 1;
      }
      if strategy == MemoryOnly || strategy == Hybrid {
        memory.entries := memory.entries[cacheKey := Entry(data, now + timeout)];
        successCount := successCount + 1;
      }
      if strategy == FileBackup && fileStored {
        successCount := successCount + 1;
      }
      ok := successCount > 0;
    }

    method Get(key: string, namespace: string, now: real, redisReply: Lookup<V>, fileReply: Lookup<V>) returns (r: Option<V>)
      modifies memory
      ensures (memory.entries, r) == Fetched(old(memory.entries), strategy, CacheKey(namespace, key), now, redisReply, fileReply)
    {
      var cacheKey := namespace + ":" + key;
      if redisReply.Hit? && strategy != MemoryOnly {
        return redisReply.data;
      }
      if strategy == MemoryOnly || strategy == Hybrid {
        if cacheKey in memory.entries {
          var entry := memory.entries[cacheKey];
          if now <= entry.expiresAt {
            return entry.data;
          } else {
            memory.entries := memory.entries - {cacheKey};
          }
        }
      }
      if strategy == FileBackup && fileReply.Hit? {
        return fileReply.data;
      }
      return None;
    }

    method Delete(key: string, namespace: string)
      modifies memory
      ensures memory.entries == Deleted(old(memory.entries), CacheKey(namespace, key))
    {
      var cacheKey := namespace + ":" + key;
      if cacheKey in memory.entries {
        memory.entries := memory.entries - {cacheKey};
      }
    }

    /** Collects the expired keys, then deletes them one by one. */
    method ClearExpired(now: real)
      modifies memory
      ensures memory.entries == Unexpired(old(memory.entries), now)
    {
      var expired: set<string> := {};
      var todo := memory.entries.Keys;
      while todo != {}
        invariant todo <= memory.entries.Keys
        invariant expired == set k | k in memory.entries && k !in todo && now > memory.entries[k].expiresAt
        decreases todo
      {
        var k :| k in todo;
        if now > memory.entries[k].expiresAt {
          expired := expired + {k};
        }
        todo := todo - {k};
      }
      ghost var start := memory.entries;
      var rest := expired;
      while rest != {}
        invariant rest <= expired
        invariant memory.entries == map k | k in start && (k !in expired || k in rest) :: start[k]
        decreases rest
      {
        var k :| k in rest;
        if k in memory.entries {
          memory.entries := memory.entries - {k};
        }
        rest := rest - {k};
      }
    }
  }

  /** The `smart_cache` wrapper for one call, on a fresh `EnhancedCache` over the shared dictionary. */
  method SmartCached<V>(memory: MemoryStore<V>, s: Strategy, key: string, timeout: real, now: real,
                        redisReply: Lookup<V>, fileReply: Lookup<V>, result: Option<V>, redisStored: bool, fileStored: bool)
    returns (r: Option<V>, called: bool)
    modifies memory
    ensures (memory.entries, r, called) == SmartCall(old(memory.entries), s, key, timeout, now, redisReply, fileReply, result)
  {
    var cache := new EnhancedCache(s, memory);
    var cached := cache.Get(key, SmartNamespace, now, redisReply, fileReply);
    if cached.Some? {
      return cached, false;
    }
    var _ := cache.Set(key, result, timeout, SmartNamespace, now, redisStored, fileStored);
    return result, true;
  }

  // ---------------------------------------------------------------------------
  // CacheStats

  /** `CacheStats.get_stats`, without rounding the rate. */
  datatype Report = Report(hits: nat, misses: nat, sets: nat, errors: nat, hitRate: real, totalRequests: nat)

  /** Hits as a percentage of hits and misses, or 0 with no requests. */
  function HitRate(hits: nat, misses: nat): real {
    if hits + misses > 0 then hits as real / (hits + misses) as real * 100.0 else 0.0
  }

  /** The rate is a percentage; it is 100 exactly when there were hits and no misses, and 0 exactly when there were no hits. */
  lemma HitRateBounds(hits: nat, misses: nat)
    ensures 0.0 <= HitRate(hits, misses) <= 100.0
    ensures HitRate(hits, misses) == 100.0 <==> hits > 0 && misses == 0
    ensures HitRate(hits, misses) == 0.0 <==> hits == 0
  {
    if hits + misses > 0 {
      var t := (hits + misses) as real;
      assert hits as real / t <= 1.0;
      if HitRate(hits, misses) == 100.0 {
        assert hits as real / t == 1.0;
        assert hits as real == t;
      }
    }
  }

  /** A hit never lowers the rate and a miss never raises it. */
  lemma HitRateMoves(hits: nat, misses: nat)
    ensures HitRate(hits + 1, misses) >= HitRate(hits, misses)
    ensures HitRate(hits, misses + 1) <= HitRate(hits, misses)
  {
    if hits + misses > 0 {
      var h, t := hits as real, (hits + misses) as real;
      assert (h + 1.0) / (t + 1.0) - h / t == (t - h) / (t * (t + 1.0));
      assert h / (t + 1.0) <= h / t;
    }
  }

  class CacheStats {
    var hits: nat
    var misses: nat
    var sets: nat
    var errors: nat

    constructor ()
      ensures hits == 0 && misses == 0 && sets == 0 && errors == 0
    {
      hits, misses, sets, errors := 0, 0, 0, 0;
    }

    method Hit()
      modifies this
      ensures hits == old(hits) + 1 && misses == old(misses) && sets == old(sets) && errors == old(errors)
    {
      hits := hits + 1;
    }

    method Miss()
      modifies this
      ensures misses == old(misses) + 1 && hits == old(hits) && sets == old(sets) && errors == old(errors)
    {
      misses := misses + 1;
    }

    method SetOperation()
      modifies this
      ensures sets == old(sets) + 1 && hits == old(hits) && misses == old(misses) && errors == old(errors)
    {
      sets := sets + 1;
    }

    method Error()
      modifies this
      ensures errors == old(errors) + 1 && hits == old(hits) && misses == old(misses) && sets == old(sets)
    {
      errors := errors + 1;
    }

    /** The counters, their total and the hit rate; a 0 rate with no requests. */
    method GetStats() returns (r: Report)
      ensures r.hits == hits && r.misses == misses && r.sets == sets && r.errors == errors
      ensures r.totalRequests == hits + misses && 0.0 <= r.hitRate <= 100.0
      ensures r.hitRate == HitRate(hits, misses)
    {
      var total := hits + misses;
      var rate := if total > 0 then hits as real / total as real * 100.0 else 0.0;
      HitRateBounds(hits, misses);
      r := Report(hits, misses, sets, errors, rate, total);
    }

    method Reset()
      modifies this
      ensures hits == 0 && misses == 0 && sets == 0 && errors == 0
    {
      hits, misses, sets, errors := 0, 0, 0, 0;
    }
  }
}
