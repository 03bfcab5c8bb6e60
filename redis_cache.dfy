/** The Redis cache wrapper: canonical cache keys built from sorted
    parameters, the commands that do nothing while the client is missing or
    disconnected, the TTLs of the two business caches, and the invalidation
    of a business. The Redis server is modelled as the map of keys it holds;
    the network, the ioredis client and JSON encoding are not part of this model. */
module RedisCache {
  import opened Common

  // ---------------------------------------------------------------------------
  // generateKey

  /** JavaScript's default `sort` order on strings: lexicographic by character. */
  predicate LexLess(a: string, b: string)
    ensures LexLess(a, b) ==> a != b && b != []
    decreases |a|
  {
    if a == [] then b != []
    else if b == [] then false
    else if a[0] != b[0] then a[0] < b[0]
    else LexLess(a[1..], b[1..])
  }

  lemma {:induction false} LexIrreflexive(a: string)
    ensures !LexLess(a, a)
    decreases |a|
  {
    if a != [] {
      LexIrreflexive(a[1..]);
    }
  }

  lemma {:induction false} LexTransitive(a: string, b: string, c: string)
    requires LexLess(a, b) && LexLess(b, c)
    ensures LexLess(a, c)
    decreases |a|
  {
    if a != [] && b != [] && c != [] && a[0] == b[0] && b[0] == c[0] {
      LexTransitive(a[1..], b[1..], c[1..]);
    }
  }

  lemma {:induction false} LexTotal(a: string, b: string)
    requires a != b
    ensures LexLess(a, b) || LexLess(b, a)
    decreases |a|
  {
    if a != [] && b != [] && a[0] == b[0] {
      assert a == [a[0]] + a[1..] && b == [b[0]] + b[1..];
      LexTotal(a[1..], b[1..]);
    }
  }

  lemma LexAsymmetric(a: string, b: string)
    requires LexLess(a, b)
    ensures !LexLess(b, a)
  {
    if LexLess(b, a) {
      LexTransitive(a, b, a);
      LexIrreflexive(a);
    }
  }

  /** An own property of the params object: key and value (as the template
      literal renders it). */
  type Param = (string, string)

  /** The keys of an object are distinct. */
  predicate DistinctKeys(ps: seq<Param>) {
    forall i, j :: 0 <= i < j < |ps| ==> ps[i].0 != ps[j].0
  }

  /** Strictly increasing keys. */
  predicate SortedByKey(ps: seq<Param>) {
    forall i, j :: 0 <= i < j < |ps| ==> LexLess(ps[i].0, ps[j].0)
  }

  /** Insert one property into a key-sorted list. */
  function Insert(p: Param, ps: seq<Param>): (r: seq<Param>)
    ensures multiset(r) == multiset(ps) + multiset{p}
    ensures |r| == |ps| + 1
    ensures forall q :: q in r <==> q == p || q in ps
  {
    if ps == [] || !LexLess(ps[0].0, p.0) then [p] + ps
    else
      assert ps == [ps[0]] + ps[1..];
      [ps[0]] + Insert(p, ps[1..])
  }

  lemma {:induction false} InsertSorted(p: Param, ps: seq<Param>)
    requires SortedByKey(ps)
    requires forall q :: q in ps ==> q.0 != p.0
    ensures SortedByKey(Insert(p, ps))
  {
    if ps == [] || !LexLess(ps[0].0, p.0) {
      if ps != [] {
        LexTotal(p.0, ps[0].0);
        forall j | 0 <= j < |ps|
          ensures LexLess(p.0, ps[j].0)
        {
          if j > 0 {
            LexTransitive(p.0, ps[0].0, ps[j].0);
          }
        }
      }
    } else {
      assert ps == [ps[0]] + ps[1..];
      InsertSorted(p, ps[1..]);
      var r := Insert(p, ps);
      forall j | 1 <= j < |r|
        ensures LexLess(ps[0].0, r[j].0)
      {
        assert r[j] in Insert(p, ps[1..]);
      }
    }
  }

  /** `Object.keys(params).sort()`, carrying each key's value along. */
  function SortParams(ps: seq<Param>): (r: seq<Param>)
    ensures multiset(r) == multiset(ps)
  {
    if ps == [] then []
    else
      assert ps == [ps[0]] + ps[1..];
      Insert(ps[0], SortParams(ps[1..]))
  }

  lemma {:induction false} SortParamsSorted(ps: seq<Param>)
    requires DistinctKeys(ps)
    ensures SortedByKey(SortParams(ps))
  {
    if ps != [] {
      SortParamsSorted(ps[1..]);
      forall q | q in SortParams(ps[1..])
        ensures q.0 != ps[0].0
      {
        assert q in multiset(SortParams(ps[1..]));
        assert q in ps[1..];
      }
      InsertSorted(ps[0], SortParams(ps[1..]));
    }
  }

  /** Two key-sorted lists with the same properties start with the same one. */
  lemma SameHead(a: seq<Param>, b: seq<Param>)
    requires SortedByKey(a) && SortedByKey(b)
    requires multiset(a) == multiset(b) && a != []
    ensures b != [] && a[0] == b[0]
  {
    assert a[0] in multiset(b);
    assert b[0] in multiset(a);
    var i :| 0 <= i < |a| && a[i] == b[0];
    var j :| 0 <= j < |b| && b[j] == a[0];
    if i > 0 && j > 0 {
      assert LexLess(b[0].0, b[j].0);
      LexAsymmetric(a[0].0, a[i].0);
      assert false;
    }
  }

  /** Two key-sorted lists with the same properties are the same list. */
  lemma {:induction false} SortedUnique(a: seq<Param>, b: seq<Param>)
    requires SortedByKey(a) && SortedByKey(b)
    requires multiset(a) == multiset(b)
    ensures a == b
  {
    if a != [] {
      SameHead(a, b);
      SortedTail(a);
      SortedTail(b);
      SortedUnique(a[1..], b[1..]);
      assert a == [a[0]] + a[1..] && b == [b[0]] + b[1..];
    } else {
      assert |multiset(b)| == 0;
    }
  }

  /** The tail of a key-sorted list is key-sorted and holds the other properties. */
  lemma SortedTail(a: seq<Param>)
    requires SortedByKey(a) && a != []
    ensures SortedByKey(a[1..])
    ensures multiset(a[1..]) == multiset(a) - multiset{a[0]}
  {
    assert a == [a[0]] + a[1..];
  }

  /** `${key}:${params[key]}` for each property, joined with '|'. */
  function JoinParams(ps: seq<Param>): (r: string)
    ensures r == [] <==> ps == []
    ensures ps != [] ==> StartsWith(r, ps[0].0 + ":" + ps[0].1)
    ensures |ps| >= 2 ==> |r| > |ps[0].0 + ":" + ps[0].1| && r[|ps[0].0 + ":" + ps[0].1|] == '|'
  {
    if ps == [] then ""
    else if |ps| == 1 then ps[0].0 + ":" + ps[0].1
    else
      var head := ps[0].0 + ":" + ps[0].1;
      assert (head + "|" + JoinParams(ps[1..]))[..|head|] == head;
      head + "|" + JoinParams(ps[1..])
  }

  /** `generateKey(type, params)`. */
  function GenerateKey(kind: string, params: seq<Param>): (k: string)
    ensures StartsWith(k, "aaa:" + kind + ":")
  {
    "aaa:" + kind + ":" + JoinParams(SortParams(params))
  }

  /** The key depends on the properties only, never on the order they were
      added to the object. */
  lemma GenerateKeyOrderIndependent(kind: string, a: seq<Param>, b: seq<Param>)
    requires DistinctKeys(a) && DistinctKeys(b)
    requires multiset(a) == multiset(b)
    ensures GenerateKey(kind, a) == GenerateKey(kind, b)
  {
    SortParamsSorted(a);
    SortParamsSorted(b);
    SortedUnique(SortParams(a), SortParams(b));
  }

  /** Without params the key ends with the type and a colon; one property
      gives `key:value` after it; two are joined in key order. */
  lemma GenerateKeyShapes(kind: string, key: string, value: string, key2: string, value2: string)
    requires LexLess(key, key2)
    ensures GenerateKey(kind, []) == "aaa:" + kind + ":"
    ensures GenerateKey(kind, [(key, value)]) == "aaa:" + kind + ":" + key + ":" + value
    ensures GenerateKey(kind, [(key2, value2), (key, value)]) == "aaa:" + kind + ":" + key + ":" + value + "|" + key2 + ":" + value2
  {
    KeyOfOne(kind, key, value);
    KeyOfTwo(kind, key, value, key2, value2);
  }

  lemma KeyOfOne(kind: string, key: string, value: string)
    ensures GenerateKey(kind, [(key, value)]) == "aaa:" + kind + ":" + key + ":" + value
  {
    assert SortParams([(key, value)]) == [(key, value)];
  }

  lemma KeyOfTwo(kind: string, key: string, value: string, key2: string, value2: string)
    requires LexLess(key, key2)
    ensures GenerateKey(kind, [(key2, value2), (key, value)]) == "aaa:" + kind + ":" + key + ":" + value + "|" + key2 + ":" + value2
  {
    SortTwo(key, value, key2, value2);
    var sorted := [(key, value), (key2, value2)];
    assert sorted[1..] == [(key2, value2)];
    var second := key2 + ":" + value2;
    assert JoinParams(sorted) == key + ":" + value + "|" + second;
    SeqAssoc5("aaa:" + kind + ":", key, ":", value, "|", second);
  }

  /** Regrouping a concatenation of six strings. */
  lemma SeqAssoc5(a: string, b: string, c: string, d: string, e: string, f: string)
    ensures a + (b + c + d + e + f) == a + b + c + d + e + f
  {
  }

  /** Two properties given out of order come out in key order. */
  lemma SortTwo(key: string, value: string, key2: string, value2: string)
    requires LexLess(key, key2)
    ensures SortParams([(key2, value2), (key, value)]) == [(key, value), (key2, value2)]
  {
    assert [(key2, value2), (key, value)][1..] == [(key, value)];
    assert SortParams([(key, value)]) == [(key, value)];
    LexAsymmetric(key, key2);
  }

  // ---------------------------------------------------------------------------
  // The client wrapper

  const DefaultTtl: nat := 300
  const BusinessSearchTtl: nat := 600
  const BusinessTtl: nat := 1800
  const SearchPrefix := "aaa:business_search:"

  /** What the server holds under a key: the cached value and the TTL it was set with. */
  datatype Entry = Entry(value: Value, ttl: nat)

  /** The key of one cached business. */
  function BusinessKey(id: string): (k: string)
    ensures k == "aaa:business:id:" + id
  {
    KeyOfOne("business", "id", id);
    GenerateKey("business", [("id", id)])
  }

  predicate StartsWith(s: string, prefix: string) {
    |prefix| <= |s| && s[..|prefix|] == prefix
  }

  /** The server's keys without the business-search entries: what
      `keys('aaa:business_search:*')` followed by `del` leaves. */
  function WithoutSearches(store: map<string, Entry>): (r: map<string, Entry>)
    ensures forall k :: k in r <==> k in store && !StartsWith(k, SearchPrefix)
    ensures forall k :: k in r ==> r[k] == store[k]
  {
    map k | k in store && !StartsWith(k, SearchPrefix) :: store[k]
  }

  /** The outcome of a call whose promise can reject. */
  datatype Completion = Completed | Rejected

  class Cache {
    /** Whether `connect()` created a client. */
    var hasClient: bool
    /** Set by the client's 'connect' and 'ready' events, cleared by 'error' and 'close'. */
    var isConnected: bool
    /** The keys the Redis server holds. */
    var store: map<string, Entry>

    /** The guard every command starts with. */
    predicate Ready()
      reads this
    {
      isConnected && hasClient
    }

    constructor (server: map<string, Entry>)
      ensures !hasClient && !isConnected && store == server
    {
      hasClient := false;
      isConnected := false;
      store := server;
    }

    /** `connect()`: a client is created; a failed connection leaves the flag cleared. */
    method Connect(fails: bool)
      modifies this
      ensures hasClient && store == old(store)
      ensures fails ==> !isConnected
      ensures !fails ==> isConnected == old(isConnected)
    {
      hasClient := true;
      if fails {
        isConnected := false;
      }
    }

    /** The client's events: 'connect'/'ready' set the flag, 'error'/'close' clear it. */
    method OnEvent(connected: bool)
      modifies this
      ensures isConnected == connected && hasClient == old(hasClient) && store == old(store)
    {
      isConnected := connected;
    }

    /** `disconnect()`: the flag is cleared only when there is a client. */
    method Disconnect()
      modifies this
      ensures hasClient == old(hasClient) && store == old(store)
      ensures isConnected == (old(isConnected) && !hasClient)
    {
      if hasClient {
        isConnected := false;
      }
    }

    /** `get(key)`: null when not ready, when the command fails, or when the key is absent. */
    method Get(key: string, fails: bool) returns (r: Value)
      ensures r == (if Ready() && !fails && key in store then store[key].value else Null)
    {
      if !Ready() {
        return Null;
      }
      if fails {
        return Null;
      }
      r := if key in store then store[key].value else Null;
    }

    /** `set(key, value, ttl = 300)`: true exactly when the value was stored. */
    method Set(key: string, value: Value, ttl: Option<nat>, fails: bool) returns (ok: bool)
      modifies this
      ensures ok <==> old(Ready()) && !fails
      ensures ok ==> store == old(store)[key := Entry(value, if ttl.Some? then ttl.value else DefaultTtl)]
      ensures !ok ==> store == old(store)
      ensures hasClient == old(hasClient) && isConnected == old(isConnected)
    {
      if !Ready() {
        return false;
      }
      if fails {
        return false;
      }
      store := store[key := Entry(value, if ttl.Some? then ttl.value else DefaultTtl)];
      ok := true;
    }

    /** `del(key)`: true exactly when the command ran. */
    method Del(key: string, fails: bool) returns (ok: bool)
      modifies this
      ensures ok <==> old(Ready()) && !fails
      ensures ok ==> store == old(store) - {key}
      ensures !ok ==> store == old(store)
      ensures hasClient == old(hasClient) && isConnected == old(isConnected)
    {
      if !Ready() {
        return false;
      }
      if fails {
        return false;
      }
      store := store - {key};
      ok := true;
    }

    /** `exists(key)`: true exactly when ready and the server holds the key. */
    method Exists(key: string, fails: bool) returns (r: bool)
      ensures r <==> Ready() && !fails && key in store
    {
      if !Ready() {
        return false;
      }
      if fails {
        return false;
      }
      r := key in store;
    }

    /** `flush()`: empties the database, true exactly when the command ran. */
    method Flush(fails: bool) returns (ok: bool)
      modifies this
      ensures ok <==> old(Ready()) && !fails
      ensures ok ==> store == map[]
      ensures !ok ==> store == old(store)
      ensures hasClient == old(hasClient) && isConnected == old(isConnected)
    {
      if !Ready() {
        return false;
      }
      if fails {
        return false;
      }
      store := map[];
      ok := true;
    }

    /** `cacheBusinessSearch`: ten minutes. */
    method CacheBusinessSearch(params: seq<Param>, results: Value, fails: bool) returns (ok: bool)
      modifies this
      ensures ok <==> old(Ready()) && !fails
      ensures ok ==> store == old(store)[GenerateKey("business_search", params) := Entry(results, BusinessSearchTtl)]
      ensures !ok ==> store == old(store)
      ensures hasClient == old(hasClient) && isConnected == old(isConnected)
    {
      ok := Set(GenerateKey("business_search", params), results, Some(BusinessSearchTtl), fails);
    }

    /** `getCachedBusinessSearch`: `get` under the same key the search was cached under. */
    method GetCachedBusinessSearch(params: seq<Param>, fails: bool) returns (r: Value)
      ensures var k := GenerateKey("business_search", params);
              r == (if Ready() && !fails && k in store then store[k].value else Null)
    {
      r := Get(GenerateKey("business_search", params), fails);
    }

    /** `cacheBusiness`: thirty minutes. */
    method CacheBusiness(id: string, business: Value, fails: bool) returns (ok: bool)
      modifies this
      ensures ok <==> old(Ready()) && !fails
      ensures ok ==> store == old(store)[BusinessKey(id) := Entry(business, BusinessTtl)]
      ensures !ok ==> store == old(store)
      ensures hasClient == old(hasClient) && isConnected == old(isConnected)
    {
      ok := Set(BusinessKey(id), business, Some(BusinessTtl), fails);
    }

    /** `getCachedBusiness`: `get` under the business's key. */
    method GetCachedBusiness(id: string, fails: bool) returns (r: Value)
      ensures r == (if Ready() && !fails && BusinessKey(id) in store then store[BusinessKey(id)].value else Null)
    {
      r := Get(BusinessKey(id), fails);
    }

    /** `invalidateBusinessCache(id)`: the business key through the guarded
        `del`, then every business-search key straight on the client, which
        is not guarded: without a client the call rejects, and while the
        client exists the searches go even when disconnected. */
    method InvalidateBusinessCache(id: string, delFails: bool, keysFail: bool) returns (c: Completion)
      modifies this
      ensures !old(hasClient) ==> c == Rejected && store == old(store)
      ensures old(hasClient) && keysFail ==> c == Rejected
      ensures c == Completed <==> old(hasClient) && !keysFail
      ensures var afterDel := if old(Ready()) && !delFails then old(store) - {BusinessKey(id)} else old(store);
              store == if c == Completed then WithoutSearches(afterDel) else afterDel
      ensures hasClient == old(hasClient) && isConnected == old(isConnected)
    {
      var _ := Del(BusinessKey(id), delFails);
      if !hasClient || keysFail {
        return Rejected;
      }
      store := WithoutSearches(store);
      c := Completed;
    }
  }

  /** A round trip: after a successful `set`, `get` of the same key returns
      the value, and `exists` holds. */
  method SetThenGet(cache: Cache, key: string, value: Value) returns (got: Value, present: bool)
    requires cache.Ready()
    modifies cache
    ensures got == value && present
  {
    var ok := cache.Set(key, value, None, false);
    got := cache.Get(key, false);
    present := cache.Exists(key, false);
  }

  /** The same round trip through the business helpers: a cached business
      is read back, and so is a cached search result under params given in
      any order. */
  method CacheThenRead(cache: Cache, id: string, business: Value, params: seq<Param>, reordered: seq<Param>, results: Value)
      returns (gotBusiness: Value, gotResults: Value)
    requires cache.Ready()
    requires DistinctKeys(params) && DistinctKeys(reordered) && multiset(reordered) == multiset(params)
    modifies cache
    ensures gotBusiness == business && gotResults == results
  {
    SearchKeyIsNotBusinessKey(id, params);
    var ok1 := cache.CacheBusiness(id, business, false);
    var ok2 := cache.CacheBusinessSearch(params, results, false);
    gotBusiness := cache.GetCachedBusiness(id, false);
    GenerateKeyOrderIndependent("business_search", params, reordered);
    gotResults := cache.GetCachedBusinessSearch(reordered, false);
  }

  /** No business key coincides with a business-search key. */
  lemma SearchKeyIsNotBusinessKey(id: string, params: seq<Param>)
    ensures BusinessKey(id) != GenerateKey("business_search", params)
  {
    BusinessKeyIsNotASearch(id);
    var prefix := "aaa:" + "business_search" + ":";
    assert prefix == SearchPrefix;
    PrefixOfConcat(prefix, JoinParams(SortParams(params)));
  }

  lemma PrefixOfConcat(a: string, b: string)
    ensures (a + b)[..|a|] == a
  {
  }

  /** A business key is never a business-search key, so invalidation drops
      every search and the business, and keeps every other business. */
  lemma BusinessKeyIsNotASearch(id: string)
    ensures !StartsWith(BusinessKey(id), SearchPrefix)
  {
    assert SortParams([("id", id)]) == [("id", id)];
    assert BusinessKey(id)[12] == ':';
    assert SearchPrefix[12] == '_';
  }
}
