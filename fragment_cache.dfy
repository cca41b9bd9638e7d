/**
 * The rendered-fragment cache of the dashboard (apps/ddash/internal/renderer/fragment_renderer.go):
 * a least-recently-used cache of rendered HTML bodies with a time to live, keyed by a fragment's
 * key and version ("key|v=version") or by its key alone ("key|ttl").
 *
 * The Go renderer keeps a linked list of entries, most recent first, and a map from cache key to
 * list element. Here the list is the sequence of keys `order` and the map holds each key's entry;
 * the pure functions Lookup and Store say what `get` and `set` do to that pair, and the class
 * FragmentRenderer changes its fields in place as the Go methods do. Time is a parameter in
 * nanoseconds (the clock reading `time.Now()` would give), as is a duration.
 */
module FragmentCache {
  import opened Wrappers
  import opened GoStrings
  import Sorting

  type Bytes = seq<bv8>

  const Second: int := 1_000_000_000
  const DefaultCapacity: int := 512
  const DefaultTtl: int := 5 * Second

  /** fragmentEntry without its key: the body and the instant after which it is stale. */
  datatype Entry = Entry(body: Bytes, expiresAt: int)

  /** The cache: keys from most to least recently used, and the entry of each key. */
  datatype Cache = Cache(order: seq<String>, entries: map<String, Entry>)

  /** What `get` leaves behind and answers. */
  datatype Got = Got(cache: Cache, body: Option<Bytes>)

  /**
   * The list and the map describe the same keys, the list has no key twice, and the cache is
   * within its capacity.
   */
  predicate Coherent(c: Cache, capacity: int)
  {
    Sorting.Distinct(c.order) && (forall k :: k in c.entries ==> k in c.order) &&
    (forall k :: k in c.order ==> k in c.entries) && |c.order| <= capacity
  }

  // ---------------------------------------------------------------------------
  // Removing a key from the recency list

  /** The list with `k` unlinked. */
  function Without(s: seq<String>, k: String): (r: seq<String>)
    ensures |r| <= |s|
  {
    if s == [] then []
    else if s[0] == k then Without(s[1..], k)
    else [s[0]] + Without(s[1..], k)
  }

  /** Unlinking keeps every other key, loses `k`, and keeps a list without repeats so. */
  lemma {:induction false} WithoutFacts(s: seq<String>, k: String)
    ensures forall x :: x in Without(s, k) <==> x in s && x != k
    ensures Sorting.Distinct(s) ==> Sorting.Distinct(Without(s, k))
    ensures Sorting.Distinct(s) && k in s ==> |Without(s, k)| == |s| - 1
    ensures k !in s ==> Without(s, k) == s
  {
    if s != [] {
      WithoutFacts(s[1..], k);
      if Sorting.Distinct(s) {
        assert Sorting.Distinct(s[1..]) by {
          forall i, j | 0 <= i < j < |s[1..]| ensures s[1..][i] != s[1..][j] {
            assert s[1..][i] == s[i + 1] && s[1..][j] == s[j + 1];
          }
        }
        if s[0] == k {
          assert k !in s[1..] by {
            forall j | 0 <= j < |s[1..]| ensures s[1..][j] != k {
              assert s[1..][j] == s[j + 1];
            }
          }
        } else {
          var w := Without(s[1..], k);
          assert s[0] !in w;
          forall i, j | 0 <= i < j < |[s[0]] + w| ensures ([s[0]] + w)[i] != ([s[0]] + w)[j] {
            if i > 0 {
              assert ([s[0]] + w)[i] == w[i - 1] && ([s[0]] + w)[j] == w[j - 1];
            } else {
              assert ([s[0]] + w)[j] in w;
            }
          }
        }
      }
    }
  }

  // ---------------------------------------------------------------------------
  // get and set on the cache contents

  /**
   * get: an absent key misses and changes nothing; a stale entry (the clock strictly after its
   * expiry) is dropped from the list and the map and misses; a live entry moves to the front and
   * its body is answered.
   */
  function Lookup(c: Cache, key: String, now: int): (r: Got)
  {
    if key !in c.entries then Got(c, None)
    else if now > c.entries[key].expiresAt then Got(Cache(Without(c.order, key), c.entries - {key}), None)
    else Got(Cache([key] + Without(c.order, key), c.entries), Some(c.entries[key].body))
  }

  /**
   * set: an existing key gets the new body and expiry and moves to the front; a new key is
   * pushed at the front, and when that overflows the capacity the least recently used key is
   * evicted.
   */
  function Store(c: Cache, key: String, body: Bytes, expiresAt: int, capacity: int): (r: Cache)
  {
    if key in c.entries then
      Cache([key] + Without(c.order, key), c.entries[key := Entry(body, expiresAt)])
    else
      var order := [key] + c.order;
      var entries := c.entries[key := Entry(body, expiresAt)];
      if |order| > capacity then Cache(order[..|order| - 1], entries - {order[|order| - 1]})
      else Cache(order, entries)
  }

  /** A hit answers the stored body, keeps every entry and makes the key the most recent. */
  lemma LookupHit(c: Cache, key: String, now: int)
    requires Coherent(c, |c.order|)
    ensures Lookup(c, key, now).body.Some? <==> key in c.entries && now <= c.entries[key].expiresAt
    ensures Lookup(c, key, now).body.Some? ==>
              Lookup(c, key, now).body.value == c.entries[key].body &&
              Lookup(c, key, now).cache.entries == c.entries &&
              Lookup(c, key, now).cache.order[0] == key &&
              |Lookup(c, key, now).cache.order| == |c.order|
  {
    WithoutFacts(c.order, key);
  }

  /** get never disturbs another key: its entry stays or goes with the cache, untouched. */
  lemma LookupKeepsOthers(c: Cache, key: String, now: int, other: String)
    requires other != key
    ensures other in Lookup(c, key, now).cache.entries <==> other in c.entries
    ensures other in c.entries ==> Lookup(c, key, now).cache.entries[other] == c.entries[other]
  {
  }

  /** get keeps the cache coherent. */
  lemma LookupCoherent(c: Cache, key: String, now: int, capacity: int)
    requires Coherent(c, capacity)
    ensures Coherent(Lookup(c, key, now).cache, capacity)
  {
    WithoutFacts(c.order, key);
    var r := Lookup(c, key, now).cache;
    if key in c.entries && now <= c.entries[key].expiresAt {
      var w := Without(c.order, key);
      assert key !in w;
      forall i, j | 0 <= i < j < |r.order| ensures r.order[i] != r.order[j] {
        if i > 0 {
          assert r.order[i] == w[i - 1] && r.order[j] == w[j - 1];
        } else {
          assert r.order[j] in w;
        }
      }
    }
  }

  /** set keeps the cache coherent, and in particular within its capacity. */
  lemma StoreCoherent(c: Cache, key: String, body: Bytes, expiresAt: int, capacity: int)
    requires capacity > 0 && Coherent(c, capacity)
    ensures Coherent(Store(c, key, body, expiresAt, capacity), capacity)
  {
    var entries := c.entries[key := Entry(body, expiresAt)];
    if key in c.entries {
      WithoutFacts(c.order, key);
      var w := Without(c.order, key);
      PushFrontDistinct(key, w);
      assert Store(c, key, body, expiresAt, capacity) == Cache([key] + w, entries);
    } else {
      var full := [key] + c.order;
      PushFrontDistinct(key, c.order);
      if |full| > capacity {
        DropLast(full, entries);
        assert Store(c, key, body, expiresAt, capacity) == Cache(full[..|full| - 1], entries - {full[|full| - 1]});
      } else {
        assert Store(c, key, body, expiresAt, capacity) == Cache(full, entries);
      }
    }
  }

  /** Pushing a key that is not in a list without repeats keeps it without repeats. */
  lemma PushFrontDistinct(key: String, s: seq<String>)
    requires Sorting.Distinct(s) && key !in s
    ensures Sorting.Distinct([key] + s)
  {
    forall i, j | 0 <= i < j < |[key] + s| ensures ([key] + s)[i] != ([key] + s)[j] {
      if i > 0 {
        assert ([key] + s)[i] == s[i - 1] && ([key] + s)[j] == s[j - 1];
      } else {
        assert ([key] + s)[j] in s;
      }
    }
  }

  /** Evicting the last key of a list without repeats from the list and the map keeps them in step. */
  lemma DropLast(full: seq<String>, entries: map<String, Entry>)
    requires full != [] && Sorting.Distinct(full)
    requires forall k :: k in entries ==> k in full
    requires forall k :: k in full ==> k in entries
    ensures Sorting.Distinct(full[..|full| - 1])
    ensures forall k :: k in entries && k != full[|full| - 1] ==> k in full[..|full| - 1]
    ensures forall k :: k in full[..|full| - 1] ==> k in entries && k != full[|full| - 1]
  {
    var tail := full[|full| - 1];
    var front := full[..|full| - 1];
    forall k | k in front ensures k in entries && k != tail {
      var i :| 0 <= i < |front| && front[i] == k;
      assert k == full[i];
    }
    forall k | k in entries && k != tail ensures k in front {
      var i :| 0 <= i < |full| && full[i] == k;
      assert k == front[i];
    }
  }

  /**
   * A body just stored is what get answers until its expiry, and nothing after it, even when
   * storing it evicted another key.
   */
  lemma StoreThenLookup(c: Cache, key: String, body: Bytes, expiresAt: int, capacity: int, now: int)
    requires capacity > 0 && Coherent(c, capacity)
    ensures now <= expiresAt ==> Lookup(Store(c, key, body, expiresAt, capacity), key, now).body == Some(body)
    ensures now > expiresAt ==> Lookup(Store(c, key, body, expiresAt, capacity), key, now).body.None?
  {
    var r := Store(c, key, body, expiresAt, capacity);
    if key !in c.entries && |[key] + c.order| > capacity {
      var full := [key] + c.order;
      assert key !in c.order;
      assert full[|full| - 1] in c.order by {
        assert full[|full| - 1] == c.order[|c.order| - 1];
      }
    }
    assert key in r.entries && r.entries[key] == Entry(body, expiresAt);
  }

  /** Storing a key already cached replaces it in place: the size and the other entries stay. */
  lemma StoreExisting(c: Cache, key: String, body: Bytes, expiresAt: int, capacity: int)
    requires Coherent(c, capacity) && key in c.entries
    ensures Store(c, key, body, expiresAt, capacity).entries == c.entries[key := Entry(body, expiresAt)]
    ensures |Store(c, key, body, expiresAt, capacity).order| == |c.order|
    ensures Store(c, key, body, expiresAt, capacity).order[0] == key
  {
    WithoutFacts(c.order, key);
  }

  /**
   * Storing a new key evicts at most one other key, and only the least recently used one, and
   * only when the cache was full.
   */
  lemma StoreNewEvictsTail(c: Cache, key: String, body: Bytes, expiresAt: int, capacity: int, other: String)
    requires capacity > 0 && Coherent(c, capacity) && key !in c.entries && other != key
    ensures other in Store(c, key, body, expiresAt, capacity).entries <==>
              other in c.entries && !(|c.order| == capacity && other == c.order[|c.order| - 1])
    ensures other in Store(c, key, body, expiresAt, capacity).entries ==>
              Store(c, key, body, expiresAt, capacity).entries[other] == c.entries[other]
    ensures Store(c, key, body, expiresAt, capacity).order[0] == key
  {
  }

  // ---------------------------------------------------------------------------
  // Cache keys

  /** RenderCached's key: fmt.Sprintf("%s|v=%d", key, version). */
  function VersionKey(key: String, version: int): (r: String)
    ensures HasPrefix(r, key + "|v=")
  {
    key + "|v=" + IntToString(version)
  }

  /** RenderCachedTTL's, TryGetTTL's and StoreTTL's key: fmt.Sprintf("%s|ttl", key). */
  function TtlKey(key: String): (r: String)
    ensures HasPrefix(r, key)
  {
    key + "|ttl"
  }

  /** A printed number has no '|'. */
  lemma NoBarInNumber(n: int)
    ensures '|' !in IntToString(n)
  {
    var s := IntToString(n);
    if n < 0 {
      assert s == "-" + NatToString(-n);
      assert forall i :: 1 <= i < |s| ==> s[i] == NatToString(-n)[i - 1];
    }
  }

  /** Everything after the last '|' of a cache key: "v=<version>" or "ttl". */
  lemma SuffixAfterBar(key: String, tail: String)
    requires '|' !in tail
    ensures LastIndexOf(key + "|" + tail, '|') == |key|
    ensures (key + "|" + tail)[..|key|] == key && (key + "|" + tail)[|key| + 1..] == tail
  {
    LastIndexOfConcat(key, '|', tail);
  }

  /**
   * Versioned keys are distinct for distinct (key, version) pairs, and never equal a TTL key: a
   * version bump always looks up a fresh entry.
   */
  lemma VersionKeyInjective(k1: String, v1: int, k2: String, v2: int)
    ensures VersionKey(k1, v1) == VersionKey(k2, v2) ==> k1 == k2 && v1 == v2
    ensures VersionKey(k1, v1) != TtlKey(k2)
  {
    NoBarInNumber(v1);
    NoBarInNumber(v2);
    var t1 := "v=" + IntToString(v1);
    var t2 := "v=" + IntToString(v2);
    assert '|' !in t1 && '|' !in t2;
    assert VersionKey(k1, v1) == k1 + "|" + t1;
    assert VersionKey(k2, v2) == k2 + "|" + t2;
    assert TtlKey(k2) == k2 + "|" + "ttl";
    SuffixAfterBar(k1, t1);
    SuffixAfterBar(k2, t2);
    SuffixAfterBar(k2, "ttl");
    if VersionKey(k1, v1) == VersionKey(k2, v2) {
      assert t1 == t2;
      assert IntToString(v1) == t1[2..] == t2[2..] == IntToString(v2);
      IntToStringInjective(v1, v2);
    }
  }

  /** TTL keys are distinct for distinct keys. */
  lemma TtlKeyInjective(k1: String, k2: String)
    ensures TtlKey(k1) == TtlKey(k2) ==> k1 == k2
  {
    SuffixAfterBar(k1, "ttl");
    SuffixAfterBar(k2, "ttl");
  }

  /**
   * After a fragment is rendered and stored under one version, asking for another version of a
   * key the cache did not hold misses, whatever the clock says.
   */
  lemma VersionBumpMisses(c: Cache, key: String, v: int, bumped: int, body: Bytes, expiresAt: int, capacity: int, now: int)
    requires v != bumped && VersionKey(key, bumped) !in c.entries
    ensures Lookup(Store(c, VersionKey(key, v), body, expiresAt, capacity), VersionKey(key, bumped), now).body.None?
  {
    VersionKeyInjective(key, v, key, bumped);
  }

  // ---------------------------------------------------------------------------
  // The renderer

  class FragmentRenderer {
    const capacity: int
    const ttl: int
    var order: seq<String>
    var entries: map<String, Entry>

    function Contents(): Cache
      reads this
    {
      Cache(order, entries)
    }

    predicate Valid()
      reads this
    {
      capacity > 0 && ttl > 0 && Coherent(Contents(), capacity)
    }

    /** NewFragmentRenderer: a non-positive capacity means 512, a non-positive TTL five seconds. */
    constructor (capacity: int, ttl: int)
      ensures this.capacity == (if capacity <= 0 then DefaultCapacity else capacity)
      ensures this.ttl == (if ttl <= 0 then DefaultTtl else ttl)
      ensures Contents() == Cache([], map[])
      ensures Valid()
    {
      this.capacity := if capacity <= 0 then DefaultCapacity else capacity;
      this.ttl := if ttl <= 0 then DefaultTtl else ttl;
      order := [];
      entries := map[];
    }

    /** get at clock reading `now`. */
    method Get(cacheKey: String, now: int) returns (body: Option<Bytes>)
      requires Valid()
      modifies this
      ensures Valid()
      ensures Contents() == Lookup(old(Contents()), cacheKey, now).cache
      ensures body == Lookup(old(Contents()), cacheKey, now).body
    {
      LookupCoherent(Contents(), cacheKey, now, capacity);
      if cacheKey !in entries {
        return None;
      }
      var entry := entries[cacheKey];
      if now > entry.expiresAt {
        order := Without(order, cacheKey);
        entries := entries - {cacheKey};
        return None;
      }
      order := [cacheKey] + Without(order, cacheKey);
      return Some(entry.body);
    }

    /** set at clock reading `now`: the entry expires `ttl` later. */
    method Set(cacheKey: String, body: Bytes, now: int)
      requires Valid()
      modifies this
      ensures Valid()
      ensures Contents() == Store(old(Contents()), cacheKey, body, now + ttl, capacity)
    {
      StoreCoherent(Contents(), cacheKey, body, now + ttl, capacity);
      if cacheKey in entries {
        entries := entries[cacheKey := Entry(body, now + ttl)];
        order := [cacheKey] + Without(order, cacheKey);
        return;
      }
      order := [cacheKey] + order;
      entries := entries[cacheKey := Entry(body, now + ttl)];
      if |order| > capacity {
        var tail := order[|order| - 1];
        order := order[..|order| - 1];
        entries := entries - {tail};
      }
    }

    /**
     * renderCachedByKey: a hit answers the cached body without building; a miss builds and
     * renders (`rendered`, read only on a miss), stores the body when that succeeded and
     * stores nothing when it failed. `now` is the clock at the lookup, `renderedAt` at the store.
     */
    method RenderCachedByKey(cacheKey: String, rendered: Result<Bytes, String>, now: int, renderedAt: int)
      returns (body: Bytes, hit: bool, err: Option<String>)
      requires Valid()
      modifies this
      ensures Valid()
      ensures var got := Lookup(old(Contents()), cacheKey, now);
              got.body.Some? ==> body == got.body.value && hit && err.None? && Contents() == got.cache
      ensures var got := Lookup(old(Contents()), cacheKey, now);
              got.body.None? && rendered.Err? ==>
                body == [] && !hit && err == Some(rendered.error) && Contents() == got.cache
      ensures var got := Lookup(old(Contents()), cacheKey, now);
              got.body.None? && rendered.Ok? ==>
                body == rendered.value && !hit && err.None? &&
                Contents() == Store(got.cache, cacheKey, rendered.value, renderedAt + ttl, capacity)
    {
      var cached := Get(cacheKey, now);
      if cached.Some? {
        return cached.value, true, None;
      }
      if rendered.Err? {
        return [], false, Some(rendered.error);
      }
      Set(cacheKey, rendered.value, renderedAt);
      return rendered.value, false, None;
    }

    /** RenderCached: renderCachedByKey under "key|v=version". */
    method RenderCached(key: String, version: int, rendered: Result<Bytes, String>, now: int, renderedAt: int)
      returns (body: Bytes, hit: bool, err: Option<String>)
      requires Valid()
      modifies this
      ensures Valid()
      ensures var got := Lookup(old(Contents()), VersionKey(key, version), now);
              got.body.Some? ==> body == got.body.value && hit && err.None? && Contents() == got.cache
      ensures var got := Lookup(old(Contents()), VersionKey(key, version), now);
              got.body.None? && rendered.Err? ==>
                body == [] && !hit && err == Some(rendered.error) && Contents() == got.cache
      ensures var got := Lookup(old(Contents()), VersionKey(key, version), now);
              got.body.None? && rendered.Ok? ==>
                body == rendered.value && !hit && err.None? &&
                Contents() == Store(got.cache, VersionKey(key, version), rendered.value, renderedAt + ttl, capacity)
    {
      body, hit, err := RenderCachedByKey(VersionKey(key, version), rendered, now, renderedAt);
    }

    /** RenderCachedTTL: renderCachedByKey under "key|ttl", with no version. */
    method RenderCachedTTL(key: String, rendered: Result<Bytes, String>, now: int, renderedAt: int)
      returns (body: Bytes, hit: bool, err: Option<String>)
      requires Valid()
      modifies this
      ensures Valid()
      ensures var got := Lookup(old(Contents()), TtlKey(key), now);
              got.body.Some? ==> body == got.body.value && hit && err.None? && Contents() == got.cache
      ensures var got := Lookup(old(Contents()), TtlKey(key), now);
              got.body.None? && rendered.Err? ==>
                body == [] && !hit && err == Some(rendered.error) && Contents() == got.cache
      ensures var got := Lookup(old(Contents()), TtlKey(key), now);
              got.body.None? && rendered.Ok? ==>
                body == rendered.value && !hit && err.None? &&
                Contents() == Store(got.cache, TtlKey(key), rendered.value, renderedAt + ttl, capacity)
    {
      body, hit, err := RenderCachedByKey(TtlKey(key), rendered, now, renderedAt);
    }

    /** TryGetTTL: a plain get of "key|ttl". */
    method TryGetTTL(key: String, now: int) returns (body: Option<Bytes>)
      requires Valid()
      modifies this
      ensures Valid()
      ensures Contents() == Lookup(old(Contents()), TtlKey(key), now).cache
      ensures body == Lookup(old(Contents()), TtlKey(key), now).body
    {
      body := Get(TtlKey(key), now);
    }

    /** StoreTTL: an empty key or an empty body is ignored; otherwise a set of "key|ttl". */
    method StoreTTL(key: String, body: Bytes, now: int)
      requires Valid()
      modifies this
      ensures Valid()
      ensures key == [] || body == [] ==> Contents() == old(Contents())
      ensures key != [] && body != [] ==> Contents() == Store(old(Contents()), TtlKey(key), body, now + ttl, capacity)
    {
      if key == [] || |body| == 0 {
        return;
      }
      Set(TtlKey(key), body, now);
    }
  }
}
