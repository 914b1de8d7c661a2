// core/cache_manager.py, memory path: a value map and an expiry map kept in step, the key shape,
// and the `cached` wrapper. time is an integer number of seconds passed in by the caller; a
// stored value of None is Python's None.

module Caching {
  import opened Wrappers
  import opened Strings

  /** _generate_key: the prefix, a colon, and the digest of the arguments. */
  function GenerateKey(prefix: string, digest: string): (r: string)
    ensures StartsWith(r, prefix + ":")
    ensures r[|prefix| + 1..] == digest
  {
    var r := prefix + ":" + digest;
    assert r[..|prefix| + 1] == prefix + ":";
    assert r[|prefix| + 1..] == digest;
    r
  }

  /** With no colon in the prefix, the prefix and the digest can be read back from the key. */
  lemma GenerateKeySplits(prefix: string, digest: string)
    requires ':' !in prefix
    ensures var k := GenerateKey(prefix, digest);
      && k[|prefix|] == ':' && k[..|prefix|] == prefix
      && (forall i :: 0 <= i < |prefix| ==> k[i] != ':')
  {
    var k := GenerateKey(prefix, digest);
    assert k == prefix + ":" + digest;
    forall i | 0 <= i < |prefix| ensures k[i] != ':' {
      assert k[i] == prefix[i];
    }
  }

  /** Values and expiry times, with the same keys. */
  predicate InStep<V>(memory: map<string, Option<V>>, expiry: map<string, int>) {
    memory.Keys == expiry.Keys
  }

  /** get: a live entry is returned; an expired one is dropped from both maps; a missing key gives None. */
  function GetOf<V>(memory: map<string, Option<V>>, expiry: map<string, int>, key: string, now: int)
    : (map<string, Option<V>>, map<string, int>, Option<V>)
  {
    if key in memory then
      if key in expiry then
        if now < expiry[key] then (memory, expiry, memory[key])
        else (memory - {key}, expiry - {key}, None)
      else (memory, expiry, memory[key])
    else (memory, expiry, None)
  }

  /** set: the value and an expiry of now plus the ttl, the default one when none is given. */
  function SetOf<V>(memory: map<string, Option<V>>, expiry: map<string, int>, key: string, value: Option<V>,
                    ttl: Option<int>, defaultTtl: int, now: int): (map<string, Option<V>>, map<string, int>)
  {
    (memory[key := value], expiry[key := now + ttl.GetOr(defaultTtl)])
  }

  function DeleteOf<V>(memory: map<string, Option<V>>, expiry: map<string, int>, key: string)
    : (map<string, Option<V>>, map<string, int>)
  {
    (memory - {key}, expiry - {key})
  }

  /** The entries of m whose key does not start with prefix. */
  function WithoutPrefix<X>(m: map<string, X>, prefix: string): map<string, X> {
    map k | k in m && !StartsWith(k, prefix) :: m[k]
  }

  /** clear: a non-empty prefix removes the keys that start with it, otherwise everything goes. */
  function ClearOf<V>(memory: map<string, Option<V>>, expiry: map<string, int>, prefix: Option<string>)
    : (map<string, Option<V>>, map<string, int>)
  {
    if prefix.None? || prefix.value == "" then (map[], map[])
    else (WithoutPrefix(memory, prefix.value), WithoutPrefix(expiry, prefix.value))
  }

  /** Every operation keeps the two maps in step. */
  lemma OperationsKeepStep<V>(memory: map<string, Option<V>>, expiry: map<string, int>, key: string,
                              value: Option<V>, ttl: Option<int>, defaultTtl: int, now: int, prefix: Option<string>)
    requires InStep(memory, expiry)
    ensures var (m, e, _) := GetOf(memory, expiry, key, now); InStep(m, e)
    ensures var (m, e) := SetOf(memory, expiry, key, value, ttl, defaultTtl, now); InStep(m, e)
    ensures var (m, e) := DeleteOf(memory, expiry, key); InStep(m, e)
    ensures var (m, e) := ClearOf(memory, expiry, prefix); InStep(m, e)
  {
  }

  /**
   * get: before the expiry time the stored value comes back and nothing changes; at or after it
   * the key leaves both maps and None comes back; a missing key gives None.
   */
  lemma GetCases<V>(memory: map<string, Option<V>>, expiry: map<string, int>, key: string, now: int)
    requires InStep(memory, expiry)
    ensures var (m, e, r) := GetOf(memory, expiry, key, now);
      && (key in memory && now < expiry[key] ==> r == memory[key] && m == memory && e == expiry)
      && (key in memory && now >= expiry[key] ==>
            r.None? && key !in m && key !in e
            && (forall k :: k in memory && k != key ==> k in m && m[k] == memory[k])
            && (forall k :: k in expiry && k != key ==> k in e && e[k] == expiry[k]))
      && (key !in memory ==> r.None? && m == memory && e == expiry)
  {
  }

  /** A value set with a ttl is what get returns until the ttl has run out, and then never again. */
  lemma GetAfterSet<V>(memory: map<string, Option<V>>, expiry: map<string, int>, key: string, value: Option<V>,
                       ttl: Option<int>, defaultTtl: int, now: int, later: int)
    ensures var (m, e) := SetOf(memory, expiry, key, value, ttl, defaultTtl, now);
      var (_, _, r) := GetOf(m, e, key, later);
      && e[key] == now + (if ttl.Some? then ttl.value else defaultTtl)
      && (later < e[key] ==> r == value)
      && (later >= e[key] ==> r.None?)
  {
  }

  /** delete removes that key and no other, and does nothing to a missing key. */
  lemma DeleteOnlyThatKey<V>(memory: map<string, Option<V>>, expiry: map<string, int>, key: string)
    ensures var (m, e) := DeleteOf(memory, expiry, key);
      && key !in m && key !in e
      && (forall k :: k != key ==> (k in m <==> k in memory) && (k in e <==> k in expiry))
      && (forall k :: k in m ==> m[k] == memory[k])
      && (key !in memory && key !in expiry ==> m == memory && e == expiry)
  {
    var (m, e) := DeleteOf(memory, expiry, key);
    if key !in memory && key !in expiry {
      assert m == memory;
      assert e == expiry;
    }
  }

  /** clear(prefix) removes exactly the keys with that plain-string prefix; clear() removes all. */
  lemma ClearExactlyPrefix<V>(memory: map<string, Option<V>>, expiry: map<string, int>, prefix: Option<string>)
    ensures var (m, e) := ClearOf(memory, expiry, prefix);
      && (prefix.None? || prefix.value == "" ==> |m| == 0 && |e| == 0)
      && (prefix.Some? && prefix.value != "" ==>
            && (forall k :: k in m <==> k in memory && !StartsWith(k, prefix.value))
            && (forall k :: k in e <==> k in expiry && !StartsWith(k, prefix.value))
            && (forall k :: k in m ==> m[k] == memory[k]))
  {
  }

  /** Every key made with a prefix goes with clear(prefix). */
  lemma ClearRemovesGeneratedKeys<V>(memory: map<string, Option<V>>, expiry: map<string, int>, prefix: string, digest: string)
    requires prefix != ""
    ensures GenerateKey(prefix, digest) !in ClearOf(memory, expiry, Some(prefix)).0
  {
    var k := GenerateKey(prefix, digest);
    assert k[..|prefix|] == prefix by {
      assert k[..|prefix| + 1] == prefix + ":";
      assert k[..|prefix|] == (prefix + ":")[..|prefix|];
    }
  }

  /** What get_stats reports on the memory path. */
  datatype CacheStats = CacheStats(kind: string, memoryCacheSize: nat, defaultTtl: int)

  class CacheManager<V> {
    var defaultTtl: int
    var memory: map<string, Option<V>>
    var expiry: map<string, int>

    ghost predicate Valid()
      reads this
    {
      InStep(memory, expiry)
    }

    constructor(defaultTtl: int)
      ensures Valid() && this.defaultTtl == defaultTtl && memory == map[] && expiry == map[]
    {
      this.defaultTtl := defaultTtl;
      memory := map[];
      expiry := map[];
    }

    method Get(key: string, now: int) returns (r: Option<V>)
      modifies this
      ensures old(Valid()) ==> Valid()
      ensures defaultTtl == old(defaultTtl)
      ensures (memory, expiry, r) == GetOf(old(memory), old(expiry), key, now)
    {
      if key in memory {
        if key in expiry {
          if now < expiry[key] {
            return memory[key];
          } else {
            memory := memory - {key};
            expiry := expiry - {key};
          }
        } else {
          return memory[key];
        }
      }
      r := None;
    }

    method Set(key: string, value: Option<V>, ttl: Option<int>, now: int)
      requires Valid()
      modifies this
      ensures Valid() && defaultTtl == old(defaultTtl)
      ensures (memory, expiry) == SetOf(old(memory), old(expiry), key, value, ttl, defaultTtl, now)
    {
      var t := if ttl.None? then defaultTtl else ttl.value;
      memory := memory[key := value];
      expiry := expiry[key := now + t];
    }

    method Delete(key: string)
      requires Valid()
      modifies this
      ensures Valid() && defaultTtl == old(defaultTtl)
      ensures (memory, expiry) == DeleteOf(old(memory), old(expiry), key)
    {
      if key in memory {
        memory := memory - {key};
      } else {
        assert memory == memory - {key};
      }
      if key in expiry {
        expiry := expiry - {key};
      } else {
        assert expiry == expiry - {key};
      }
    }

    /** clear: with a prefix, the matching keys are collected first and deleted one by one. */
    method Clear(prefix: Option<string>)
      requires Valid()
      modifies this
      ensures Valid() && defaultTtl == old(defaultTtl)
      ensures (memory, expiry) == ClearOf(old(memory), old(expiry), prefix)
    {
      if prefix.Some? && prefix.value != "" {
        var p := prefix.value;
        var toDelete := set k | k in memory && StartsWith(k, p);
        var rest := toDelete;
        while rest != {}
          invariant Valid() && defaultTtl == old(defaultTtl)
          invariant rest <= toDelete
          invariant memory == map k | k in old(memory) && (k !in toDelete || k in rest) :: old(memory)[k]
          invariant expiry == map k | k in old(expiry) && (k !in toDelete || k in rest) :: old(expiry)[k]
          decreases |rest|
        {
          var k :| k in rest;
          Delete(k);
          rest := rest - {k};
        }
        assert forall k :: k in old(memory) ==> (k in toDelete <==> StartsWith(k, p));
        assert memory == WithoutPrefix(old(memory), p);
        assert expiry == WithoutPrefix(old(expiry), p);
      } else {
        memory := map[];
        expiry := map[];
      }
    }

    /** get_stats: the size counts every stored entry, expired or not. */
    function Stats(): (s: CacheStats)
      reads this
      ensures s.memoryCacheSize == |memory| && s.defaultTtl == defaultTtl
    {
      CacheStats("memory", |memory|, defaultTtl)
    }
  }

  /** What the `cached` wrapper does around one call: a hit, or the call and its result stored. */
  function CachedOf<V>(memory: map<string, Option<V>>, expiry: map<string, int>, key: string, ttl: int,
                       now: int, result: Option<V>): (map<string, Option<V>>, map<string, int>, Option<V>, bool)
  {
    var (m, e, hit) := GetOf(memory, expiry, key, now);
    if hit.Some? then (m, e, hit, false)
    else
      var (m', e') := SetOf(m, e, key, result, Some(ttl), 0, now);
      (m', e', result, true)
  }

  /**
   * The `cached` wrapper: a cached value that is not None is returned without a call; otherwise
   * the function is called and its result stored under the key with the wrapper's ttl.
   * `result` is what the wrapped function would return; `called` says whether it was called.
   */
  method Cached<V>(cm: CacheManager<V>, prefix: string, digest: string, ttl: int, now: int, result: Option<V>)
    returns (r: Option<V>, called: bool)
    requires cm.Valid()
    modifies cm
    ensures cm.Valid() && cm.defaultTtl == old(cm.defaultTtl)
    ensures (cm.memory, cm.expiry, r, called)
        == CachedOf(old(cm.memory), old(cm.expiry), GenerateKey(prefix, digest), ttl, now, result)
  {
    var key := prefix + ":" + digest;
    var hit := cm.Get(key, now);
    if hit.Some? {
      return hit, false;
    }
    cm.Set(key, result, Some(ttl), now);
    r, called := result, true;
  }

  /**
   * The wrapper calls the function exactly when get finds nothing that is not None, and after a
   * call the key holds the result until now + ttl.
   */
  lemma CachedCalls<V>(memory: map<string, Option<V>>, expiry: map<string, int>, key: string, ttl: int,
                       now: int, result: Option<V>)
    requires InStep(memory, expiry)
    ensures var (m, e, r, called) := CachedOf(memory, expiry, key, ttl, now, result);
      && (called <==> GetOf(memory, expiry, key, now).2.None?)
      && (!called ==> r == memory[key] && r.Some? && m == memory && e == expiry)
      && (called ==> r == result && key in m && m[key] == result && e[key] == now + ttl)
      && InStep(m, e)
  {
  }

  /**
   * A call that stored a result that is not None makes every later call within the ttl a hit
   * returning that result; a None result is never a hit.
   */
  lemma CachedTwice<V>(memory: map<string, Option<V>>, expiry: map<string, int>, key: string, ttl: int,
                       now: int, later: int, result: Option<V>, result': Option<V>)
    requires InStep(memory, expiry)
    ensures var (m, e, _, called) := CachedOf(memory, expiry, key, ttl, now, result);
      var (_, _, r', called') := CachedOf(m, e, key, ttl, later, result');
      && (called && result.Some? && later < now + ttl ==> !called' && r' == result)
      && (called && result.None? ==> called')
  {
  }
}
