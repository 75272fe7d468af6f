/** The process-wide key/value cache of utils/cacheService.js: a node-cache
    instance with a 300-second default TTL, wrapped by `get`, `set`, a
    prefix-based `del`, `flush`, `keys` and two read-through helpers.

    Time is a logical clock in milliseconds held by the store; an entry set
    with a TTL of `t` seconds at time `now` is visible while the clock has
    not passed `now + 1000 * t` (node-cache expires an entry only once its
    deadline is strictly in the past), and a TTL of 0 means the entry never
    expires. */
module Cache {
  import opened Wrappers
  import opened Text

  /** The `stdTTL` of the store and the default of `set`, in seconds. */
  const DefaultTtl: nat := 300

  /** Key prefixes of the two read-through caches. */
  const UserPrefix: string := "User:"
  const WebsiteUserPrefix: string := "Website_User:"

  datatype Entry<V> = Entry(value: V, expiresAt: Option<int>)

  type Table<V> = map<string, Entry<V>>

  /** The entry under `k` exists and has not expired at time `now`: its
      deadline, if any, is not before `now`. */
  predicate Live<V>(m: Table<V>, now: int, k: string) {
    k in m && (m[k].expiresAt.None? || now <= m[k].expiresAt.value)
  }

  /** `cache.get(key)`: the value, or absent when missing or expired. */
  function Lookup<V>(m: Table<V>, now: int, k: string): Option<V> {
    if Live(m, now, k) then Some(m[k].value) else None
  }

  function Expiry(now: int, ttl: nat): Option<int> {
    if ttl == 0 then None else Some(now + 1000 * ttl)
  }

  /** `cache.set(key, value, ttl)`. */
  function Put<V>(m: Table<V>, now: int, k: string, v: V, ttl: nat): Table<V> {
    m[k := Entry(v, Expiry(now, ttl))]
  }

  /** The table after deleting every key that starts with `p`. */
  function DropPrefix<V>(m: Table<V>, p: string): Table<V> {
    map k | k in m && !StartsWith(k, p) :: m[k]
  }

  /** After `set(k, v, ttl)` at `t0`, `get(k)` at any later `t` yields `v`
      up to and including the moment the TTL has elapsed, and absent
      afterwards. */
  lemma LookupAfterPut<V>(m: Table<V>, t0: int, k: string, v: V, ttl: nat, t: int)
    requires t0 <= t
    ensures Lookup(Put(m, t0, k, v, ttl), t, k)
            == if ttl == 0 || t <= t0 + 1000 * ttl then Some(v) else None
  {
  }

  /** `set` without a TTL keeps the value for 300 seconds, the last
      millisecond included. */
  lemma LookupAfterDefaultPut<V>(m: Table<V>, t0: int, k: string, v: V, t: int)
    requires t0 <= t
    ensures t <= t0 + 300000 ==> Lookup(Put(m, t0, k, v, DefaultTtl), t, k) == Some(v)
    ensures t0 + 300000 < t ==> Lookup(Put(m, t0, k, v, DefaultTtl), t, k) == None
  {
    LookupAfterPut(m, t0, k, v, DefaultTtl, t);
  }

  /** `set` touches no other key. */
  lemma PutOther<V>(m: Table<V>, now: int, k: string, v: V, ttl: nat, k': string, t: int)
    requires k' != k
    ensures (k' in Put(m, now, k, v, ttl)) == (k' in m)
    ensures k' in m ==> Put(m, now, k, v, ttl)[k'] == m[k']
    ensures Lookup(Put(m, now, k, v, ttl), t, k') == Lookup(m, t, k')
  {
  }

  /** `del(p)` removes exactly the keys that start with `p` and keeps every
      other key with its entry. */
  lemma DropPrefixExact<V>(m: Table<V>, p: string, k: string)
    ensures k in DropPrefix(m, p) <==> k in m && !StartsWith(k, p)
    ensures k in DropPrefix(m, p) ==> DropPrefix(m, p)[k] == m[k]
  {
  }

  /** `del(p)` with no matching key leaves the table as it was. */
  lemma DropPrefixNoMatch<V>(m: Table<V>, p: string)
    requires forall k :: k in m ==> !StartsWith(k, p)
    ensures DropPrefix(m, p) == m
  {
    assert DropPrefix(m, p).Keys == m.Keys;
  }

  /** Deleting a key's prefix removes every key that extends it, and nothing
      outside those keys. */
  lemma DropPrefixExtensions<V>(m: Table<V>, p: string, k: string, t: int)
    ensures StartsWith(k, p) ==> Lookup(DropPrefix(m, p), t, k) == None
    ensures !StartsWith(k, p) ==> Lookup(DropPrefix(m, p), t, k) == Lookup(m, t, k)
  {
  }

  class Store<V> {
    var entries: Table<V>
    var now: int

    constructor ()
      ensures entries == map[] && now == 0
    {
      entries := map[];
      now := 0;
    }

    /** The clock moves forward by `ms` milliseconds. */
    method Advance(ms: nat)
      modifies this`now
      ensures now == old(now) + ms
    {
      now := now + ms;
    }

    /** `get(key)`. */
    method Get(k: string) returns (r: Option<V>)
      ensures r.Some? <==> Live(entries, now, k)
      ensures r.Some? ==> r.value == entries[k].value
    {
      if k in entries && (entries[k].expiresAt.None? || now <= entries[k].expiresAt.value) {
        r := Some(entries[k].value);
      } else {
        r := None;
      }
    }

    /** `set(key, value, ttl = 300)`. */
    method Set(k: string, v: V, ttl: nat := DefaultTtl)
      modifies this`entries
      ensures entries == Put(old(entries), now, k, v, ttl)
    {
      entries := entries[k := Entry(v, Expiry(now, ttl))];
    }

    /** `del(pattern)`: the keys starting with `pattern` are collected and,
        when there is at least one, removed together. */
    method Del(pattern: string)
      modifies this`entries
      ensures entries == DropPrefix(old(entries), pattern)
    {
      var matched := set k | k in entries && StartsWith(k, pattern);
      if |matched| > 0 {
        entries := entries - matched;
      } else {
        forall k | k in entries
          ensures !StartsWith(k, pattern)
        {
          assert k !in matched;
        }
        DropPrefixNoMatch(entries, pattern);
      }
    }

    /** `flush()`. */
    method Flush()
      modifies this`entries
      ensures entries == map[]
    {
      entries := map[];
    }

    /** `keys()` as written: the body calls `cache.keys()` but has no
        `return`, so every caller receives `undefined`. */
    method Keys() returns (r: Option<seq<string>>)
      ensures r.None?
    {
      r := None;
    }

    /** What `keys()` evidently means to return: every key of the store,
        each once. The order is the store's enumeration order, which the
        model leaves open. */
    method ListKeys() returns (ks: seq<string>)
      ensures forall k :: k in ks <==> k in entries
      ensures forall i, j :: 0 <= i < j < |ks| ==> ks[i] != ks[j]
    {
      ks := [];
      var rest := entries.Keys;
      while rest != {}
        invariant rest <= entries.Keys
        invariant forall k :: k in ks <==> k in entries && k !in rest
        invariant forall i, j :: 0 <= i < j < |ks| ==> ks[i] != ks[j]
        decreases rest
      {
        var k :| k in rest;
        ks := ks + [k];
        rest := rest - {k};
      }
    }

    /** The shared body of `getOrSetUser` and `getOrSetWebsiteUsers`: a
        cached value under `prefix + key` is returned without calling the
        fetch callback; otherwise the callback's result `fetched` is stored
        (when it is a value, not `null`) and returned. Values in these caches
        are always documents, so "truthy" is "present". */
    method GetOrSet(prefix: string, key: string, fetched: Option<V>) returns (r: Option<V>, calledFetch: bool)
      modifies this`entries
      ensures Live(old(entries), now, prefix + key) ==>
                !calledFetch && r == Some(old(entries)[prefix + key].value) && entries == old(entries)
      ensures !Live(old(entries), now, prefix + key) ==>
                calledFetch && r == fetched &&
                entries == if fetched.Some? then Put(old(entries), now, prefix + key, fetched.value, DefaultTtl)
                           else old(entries)
    {
      var cached := Get(prefix + key);
      if cached.Some? {
        return cached, false;
      }
      calledFetch := true;
      r := fetched;
      if fetched.Some? {
        Set(prefix + key, fetched.value);
      }
    }

    /** `getOrSetUser(key, fetch)`, caching under `User:<key>`. */
    method GetOrSetUser(key: string, fetched: Option<V>) returns (r: Option<V>, calledFetch: bool)
      modifies this`entries
      ensures Live(old(entries), now, UserPrefix + key) ==>
                !calledFetch && r == Some(old(entries)[UserPrefix + key].value) && entries == old(entries)
      ensures !Live(old(entries), now, UserPrefix + key) ==>
                calledFetch && r == fetched &&
                entries == if fetched.Some? then Put(old(entries), now, UserPrefix + key, fetched.value, DefaultTtl)
                           else old(entries)
    {
      r, calledFetch := GetOrSet(UserPrefix, key, fetched);
    }

    /** `getOrSetWebsiteUsers(key, fetch)`, caching under `Website_User:<key>`. */
    method GetOrSetWebsiteUsers(key: string, fetched: Option<V>) returns (r: Option<V>, calledFetch: bool)
      modifies this`entries
      ensures Live(old(entries), now, WebsiteUserPrefix + key) ==>
                !calledFetch && r == Some(old(entries)[WebsiteUserPrefix + key].value) && entries == old(entries)
      ensures !Live(old(entries), now, WebsiteUserPrefix + key) ==>
                calledFetch && r == fetched &&
                entries == if fetched.Some? then Put(old(entries), now, WebsiteUserPrefix + key, fetched.value, DefaultTtl)
                           else old(entries)
    {
      r, calledFetch := GetOrSet(WebsiteUserPrefix, key, fetched);
    }
  }

  /** Every key the website-user helper writes starts with `Website_User:`,
      so `del('Website_User:')` (run on each login) invalidates all of them. */
  lemma WebsiteUsersInvalidated<V>(m: Table<V>, key: string, t: int)
    ensures Lookup(DropPrefix(m, WebsiteUserPrefix), t, WebsiteUserPrefix + key) == None
  {
    assert StartsWith(WebsiteUserPrefix + key, WebsiteUserPrefix) by {
      assert (WebsiteUserPrefix + key)[..|WebsiteUserPrefix|] == WebsiteUserPrefix;
    }
  }
}
