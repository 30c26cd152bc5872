/** The in-memory LRU cache with TTL expiry (`MemoryCache`): a map from
    key to entry, an access-order list whose front is the least recently
    used key, and hit/miss/entry counters.

    `CacheState` and the functions `GetSpec`, `SetSpec`, `DeleteSpec` and
    `ClearSpec` say what each operation does to the whole state; the lemmas
    below prove what the cache promises about them, and the class
    `MemoryCache` implements each operation in place and is proved to follow
    its function. The clock (`Date.now()`) is the parameter `now`, in ms. */
module CacheMemory {
  import opened Wrappers

  datatype CacheEntry<D> = CacheEntry(data: D, timestamp: int, etag: Option<string>, expiresAt: int)

  datatype CacheStats = CacheStats(hits: nat, misses: nat, entries: nat)

  datatype CacheOptions = CacheOptions(ttl: int, staleWhileRevalidate: int, maxEntries: int)

  const DefaultTtl: int := 5 * 60 * 1000
  const DefaultStaleWhileRevalidate: int := 0
  const DefaultMaxEntries: int := 1000

  /** The constructor's `??` defaults. */
  function ResolveOptions(ttl: Option<int>, staleWhileRevalidate: Option<int>, maxEntries: Option<int>): CacheOptions {
    CacheOptions(
      ttl.GetOr(DefaultTtl),
      staleWhileRevalidate.GetOr(DefaultStaleWhileRevalidate),
      maxEntries.GetOr(DefaultMaxEntries))
  }

  /** `isStale`: past its expiry, though possibly still inside the
      stale-while-revalidate window. */
  predicate IsStale<D>(entry: CacheEntry<D>, now: int) {
    now > entry.expiresAt
  }

  /** `createEntry`: stamped now, expiring one TTL later. */
  function CreateEntry<D>(o: CacheOptions, data: D, etag: Option<string>, now: int): CacheEntry<D> {
    CacheEntry(data, now, etag, now + o.ttl)
  }

  // ---------------------------------------------------------------------
  // The access-order list

  predicate NoDup(s: seq<string>) {
    forall i, j :: 0 <= i < j < |s| ==> s[i] != s[j]
  }

  /** `indexOf` followed by `splice(index, 1)`: drop the first occurrence. */
  function RemoveFirst(s: seq<string>, k: string): seq<string> {
    if s == [] then [] else if s[0] == k then s[1..] else [s[0]] + RemoveFirst(s[1..], k)
  }

  /** `updateAccessOrder`: move (or add) the key to the most-recent end. */
  function Touch(s: seq<string>, k: string): seq<string> {
    RemoveFirst(s, k) + [k]
  }

  lemma {:induction false} RemoveFirstElems(s: seq<string>, k: string)
    requires NoDup(s)
    ensures NoDup(RemoveFirst(s, k))
    ensures forall x :: x in RemoveFirst(s, k) <==> x in s && x != k
    ensures k in s ==> |RemoveFirst(s, k)| == |s| - 1
    ensures k !in s ==> RemoveFirst(s, k) == s
  {
    if s != [] {
      assert NoDup(s[1..]);
      RemoveFirstElems(s[1..], k);
      if s[0] != k {
        var r := [s[0]] + RemoveFirst(s[1..], k);
        assert s[0] !in s[1..];
        forall i, j | 0 <= i < j < |r| ensures r[i] != r[j] {
          if i == 0 { assert r[j] in RemoveFirst(s[1..], k); }
        }
      } else {
        assert k !in s[1..];
      }
    }
  }

  lemma {:induction false} RemoveFirstAt(s: seq<string>, k: string, i: nat)
    requires i < |s| && s[i] == k && k !in s[..i]
    ensures RemoveFirst(s, k) == s[..i] + s[i + 1..]
  {
    if i > 0 {
      assert s[1..][..i - 1] == s[1..i];
      assert k !in s[1..][..i - 1];
      RemoveFirstAt(s[1..], k, i - 1);
      assert s[..i] == [s[0]] + s[1..i];
    }
  }

  lemma TouchElems(s: seq<string>, k: string)
    requires NoDup(s)
    ensures NoDup(Touch(s, k))
    ensures forall x :: x in Touch(s, k) <==> x in s || x == k
    ensures |Touch(s, k)| == if k in s then |s| else |s| + 1
  {
    RemoveFirstElems(s, k);
    var r := RemoveFirst(s, k);
    forall i, j | 0 <= i < j < |r + [k]| ensures (r + [k])[i] != (r + [k])[j] {
      if j == |r| { assert r[i] in r; }
    }
  }

  lemma {:induction false} NoDupCard(s: seq<string>)
    requires NoDup(s)
    ensures |set x | x in s| == |s|
  {
    if s != [] {
      assert NoDup(s[1..]);
      NoDupCard(s[1..]);
      assert (set x | x in s) == (set x | x in s[1..]) + {s[0]};
      assert s[0] !in s[1..];
    }
  }

  // ---------------------------------------------------------------------
  // The whole state and its invariant

  datatype CacheState<D> = CacheState(store: map<string, CacheEntry<D>>, order: seq<string>, stats: CacheStats)

  function EmptyState<D>(): CacheState<D> {
    CacheState(map[], [], CacheStats(0, 0, 0))
  }

  /** The most entries a cache can hold: `maxEntries`, but at least one,
      since `set` adds its key after evicting. */
  function Capacity(maxEntries: int): nat {
    if maxEntries < 1 then 1 else maxEntries
  }

  /** The access list is a duplicate-free list of exactly the map's keys,
      the entry counter is the map's size, and the size is bounded. */
  ghost predicate Inv<D>(s: CacheState<D>, o: CacheOptions) {
    && Coherent(s.store, s.order)
    && s.stats.entries == |s.store|
    && |s.store| <= Capacity(o.maxEntries)
  }

  /** The access list is a duplicate-free list of exactly the map's keys. */
  ghost predicate Coherent<D>(store: map<string, CacheEntry<D>>, order: seq<string>) {
    && NoDup(order)
    && (forall k :: k in order <==> k in store)
  }

  lemma SizeIsOrderLength<D>(store: map<string, CacheEntry<D>>, order: seq<string>)
    requires Coherent(store, order)
    ensures |store| == |order|
  {
    NoDupCard(order);
    assert store.Keys == set x | x in order;
  }

  // ---------------------------------------------------------------------
  // The operations on the state

  /** `get`: a miss when the key is absent or the entry is past
      `expiresAt + staleWhileRevalidate` (then it is also dropped);
      otherwise a hit that makes the key the most recently used. */
  function GetSpec<D>(s: CacheState<D>, o: CacheOptions, key: string, now: int): (CacheState<D>, Option<CacheEntry<D>>) {
    if key !in s.store then
      (s.(stats := s.stats.(misses := s.stats.misses + 1)), None)
    else if now > s.store[key].expiresAt + o.staleWhileRevalidate then
      var store := s.store - {key};
      (CacheState(store, RemoveFirst(s.order, key), CacheStats(s.stats.hits, s.stats.misses + 1, |store|)), None)
    else
      (s.(order := Touch(s.order, key), stats := s.stats.(hits := s.stats.hits + 1)), Some(s.store[key]))
  }

  /** Whether `set` must first evict: a new key with the cache at capacity. */
  predicate MustEvict<D>(s: CacheState<D>, o: CacheOptions, key: string) {
    key !in s.store && |s.store| >= o.maxEntries
  }

  /** `evictLRU`: shift the front key off the access list and delete it.
      (The source tests the shifted key for truthiness; see
      `EvictLRUAsWritten` for what that does to the empty key.) */
  function EvictSpec<D>(s: CacheState<D>): CacheState<D> {
    if s.order == [] then s else s.(store := s.store - {s.order[0]}, order := s.order[1..])
  }

  /** The rest of `set`: store the entry, mark the key most recent, recount. */
  function Insert<D>(s: CacheState<D>, key: string, entry: CacheEntry<D>): CacheState<D> {
    var store := s.store[key := entry];
    CacheState(store, Touch(s.order, key), s.stats.(entries := |store|))
  }

  function SetSpec<D>(s: CacheState<D>, o: CacheOptions, key: string, entry: CacheEntry<D>): CacheState<D> {
    Insert(if MustEvict(s, o, key) then EvictSpec(s) else s, key, entry)
  }

  function DeleteSpec<D>(s: CacheState<D>, key: string): CacheState<D> {
    var store := s.store - {key};
    CacheState(store, RemoveFirst(s.order, key), s.stats.(entries := |store|))
  }

  /** `clear` empties both structures and zeroes every counter. */
  function ClearSpec<D>(s: CacheState<D>): CacheState<D> {
    EmptyState()
  }

  // ---------------------------------------------------------------------
  // What the operations promise

  /** `get` returns an entry exactly when the key is present and not past
      `expiresAt + staleWhileRevalidate` (at equality it is still returned),
      and then returns the stored entry unchanged. */
  lemma GetReturnsLiveEntries<D>(s: CacheState<D>, o: CacheOptions, key: string, now: int)
    ensures var r := GetSpec(s, o, key, now).1;
      && (r.Some? <==> key in s.store && now <= s.store[key].expiresAt + o.staleWhileRevalidate)
      && (r.Some? ==> r.value == s.store[key])
  {
  }

  /** A miss on an absent key counts one miss and changes nothing else. */
  lemma GetAbsentCountsMissOnly<D>(s: CacheState<D>, o: CacheOptions, key: string, now: int)
    requires key !in s.store
    ensures GetSpec(s, o, key, now) == (s.(stats := CacheStats(s.stats.hits, s.stats.misses + 1, s.stats.entries)), None)
  {
  }

  /** An expired entry is removed from both the map and the access list, and
      counted as a miss. */
  lemma GetDropsExpired<D>(s: CacheState<D>, o: CacheOptions, key: string, now: int)
    requires Inv(s, o)
    requires key in s.store && now > s.store[key].expiresAt + o.staleWhileRevalidate
    ensures var t := GetSpec(s, o, key, now).0;
      && key !in t.store && key !in t.order
      && t.store == s.store - {key}
      && t.stats == CacheStats(s.stats.hits, s.stats.misses + 1, |t.store|)
      && |t.order| == |s.order| - 1
  {
    RemoveFirstElems(s.order, key);
  }

  /** A hit counts one hit, keeps the map, and moves the key to the most
      recent end, leaving the other keys in their order. */
  lemma GetHitTouchesKey<D>(s: CacheState<D>, o: CacheOptions, key: string, now: int)
    requires Inv(s, o)
    requires GetSpec(s, o, key, now).1.Some?
    ensures var t := GetSpec(s, o, key, now).0;
      && t.store == s.store
      && t.stats == s.stats.(hits := s.stats.hits + 1)
      && |t.order| == |s.order| && t.order[|t.order| - 1] == key
      && t.order[..|t.order| - 1] == RemoveFirst(s.order, key)
  {
    TouchElems(s.order, key);
    var t := GetSpec(s, o, key, now).0;
    assert t.order == RemoveFirst(s.order, key) + [key];
  }

  lemma GetPreservesInv<D>(s: CacheState<D>, o: CacheOptions, key: string, now: int)
    requires Inv(s, o)
    ensures Inv(GetSpec(s, o, key, now).0, o)
  {
    RemoveFirstElems(s.order, key);
    TouchElems(s.order, key);
  }

  lemma EvictLRUDropsFront<D>(s: CacheState<D>)
    requires Coherent(s.store, s.order) && s.order != []
    ensures var t := EvictSpec(s);
      && Coherent(t.store, t.order)
      && s.order[0] !in t.store
      && t.store == s.store - {s.order[0]}
      && |t.store| == |s.store| - 1
  {
    assert NoDup(s.order[1..]);
    assert s.order[0] !in s.order[1..];
    var t := EvictSpec(s);
    forall k ensures k in t.order <==> k in t.store {
      if k in t.order { assert k in s.order; }
      if k in t.store { assert k in s.order && k != s.order[0]; }
    }
  }

  lemma InsertKeepsCoherent<D>(s: CacheState<D>, key: string, entry: CacheEntry<D>)
    requires Coherent(s.store, s.order)
    ensures var t := Insert(s, key, entry);
      && Coherent(t.store, t.order)
      && t.stats.entries == |t.store|
      && |t.store| == (if key in s.store then |s.store| else |s.store| + 1)
  {
    TouchElems(s.order, key);
    var t := Insert(s, key, entry);
    if key in s.store {
      assert t.store.Keys == s.store.Keys;
    }
  }

  /** `set` keeps the invariant; in particular the size never exceeds
      `maxEntries` (or one, when `maxEntries` is below one). */
  lemma SetPreservesInv<D>(s: CacheState<D>, o: CacheOptions, key: string, entry: CacheEntry<D>)
    requires Inv(s, o)
    ensures Inv(SetSpec(s, o, key, entry), o)
  {
    if !MustEvict(s, o, key) {
      InsertKeepsCoherent(s, key, entry);
    } else if s.order != [] {
      EvictLRUDropsFront(s);
      InsertKeepsCoherent(EvictSpec(s), key, entry);
    } else {
      SizeIsOrderLength(s.store, s.order);
      InsertKeepsCoherent(s, key, entry);
    }
  }

  /** With `maxEntries` at least one, the cache never holds more. */
  lemma SizeNeverExceedsMaxEntries<D>(s: CacheState<D>, o: CacheOptions, key: string, entry: CacheEntry<D>)
    requires Inv(s, o) && o.maxEntries >= 1
    ensures |SetSpec(s, o, key, entry).store| <= o.maxEntries
  {
    SetPreservesInv(s, o, key, entry);
  }

  /** Setting a new key into a full cache evicts exactly the least recently
      used key (the front of the access list) and keeps every other entry. */
  lemma SetEvictsLeastRecentlyUsed<D>(s: CacheState<D>, o: CacheOptions, key: string, entry: CacheEntry<D>)
    requires Inv(s, o) && MustEvict(s, o, key) && s.store != map[]
    ensures var t := SetSpec(s, o, key, entry);
      && s.order != [] && s.order[0] !in t.store
      && t.store == (s.store - {s.order[0]})[key := entry]
      && t.order == s.order[1..] + [key]
  {
    SizeIsOrderLength(s.store, s.order);
    assert s.order != [];
    EvictLRUDropsFront(s);
    assert key !in s.order[1..];
    RemoveFirstElems(s.order[1..], key);
  }

  /** Overwriting a present key never evicts: the key set is unchanged. */
  lemma SetOverwriteNeverEvicts<D>(s: CacheState<D>, o: CacheOptions, key: string, entry: CacheEntry<D>)
    requires Inv(s, o) && key in s.store
    ensures var t := SetSpec(s, o, key, entry);
      && t.store == s.store[key := entry]
      && t.store.Keys == s.store.Keys
      && t.stats == s.stats
      && t.order[|t.order| - 1] == key
  {
    var t := SetSpec(s, o, key, entry);
    assert t.store.Keys == s.store.Keys;
  }

  lemma DeletePreservesInv<D>(s: CacheState<D>, o: CacheOptions, key: string)
    requires Inv(s, o)
    ensures var t := DeleteSpec(s, key);
      && Inv(t, o) && key !in t.store && key !in t.order
      && t.stats.hits == s.stats.hits && t.stats.misses == s.stats.misses
  {
    RemoveFirstElems(s.order, key);
  }

  lemma ClearPreservesInv<D>(s: CacheState<D>, o: CacheOptions)
    ensures Inv(ClearSpec(s), o)
    ensures ClearSpec(s).store == map[] && ClearSpec(s).order == []
    ensures ClearSpec(s).stats == CacheStats(0, 0, 0)
  {
  }

  /** A stale entry (past `expiresAt`) is still served by `get` while inside
      the stale-while-revalidate window; that is what "stale" means here. */
  lemma StaleEntriesServedInWindow<D>(s: CacheState<D>, o: CacheOptions, key: string, now: int)
    requires key in s.store && IsStale(s.store[key], now)
    ensures GetSpec(s, o, key, now).1.Some? <==> now <= s.store[key].expiresAt + o.staleWhileRevalidate
  {
  }

  /** A created entry satisfies `expiresAt >= timestamp` for a non-negative
      TTL, is fresh up to and including `now + ttl` and stale after it. */
  lemma CreatedEntryLifetime<D>(o: CacheOptions, data: D, etag: Option<string>, now: int, later: int)
    requires o.ttl >= 0 && later >= now
    ensures var e := CreateEntry(o, data, etag, now);
      && e.timestamp == now && e.expiresAt >= e.timestamp && e.data == data && e.etag == etag
      && (IsStale(e, later) <==> later > now + o.ttl)
  {
  }

  /** Setting `maxEntries` distinct keys (up to capacity) from empty: the
      access list is exactly those keys in insertion order. */
  function SetAll<D>(s: CacheState<D>, o: CacheOptions, keys: seq<string>, entry: CacheEntry<D>): CacheState<D> {
    if keys == [] then s else SetSpec(SetAll(s, o, keys[..|keys| - 1], entry), o, keys[|keys| - 1], entry)
  }

  lemma {:induction false} FillInOrder<D>(o: CacheOptions, keys: seq<string>, entry: CacheEntry<D>)
    requires NoDup(keys) && |keys| <= o.maxEntries
    ensures var t := SetAll(EmptyState(), o, keys, entry);
      && t.order == keys && Inv(t, o)
  {
    if keys != [] {
      var init := keys[..|keys| - 1];
      var last := keys[|keys| - 1];
      assert NoDup(init);
      assert last !in init;
      FillInOrder(o, init, entry);
      FillStep(SetAll(EmptyState(), o, init, entry), o, init, last, entry);
      assert init + [last] == keys;
    }
  }

  /** One step of the above: a new key into a cache that is not full. */
  lemma FillStep<D>(s: CacheState<D>, o: CacheOptions, init: seq<string>, last: string, entry: CacheEntry<D>)
    requires Inv(s, o) && s.order == init && last !in init && |init| < o.maxEntries
    ensures var t := SetSpec(s, o, last, entry);
      && t.order == init + [last] && Inv(t, o)
  {
    SizeIsOrderLength(s.store, s.order);
    assert !MustEvict(s, o, last);
    RemoveFirstElems(init, last);
    InsertKeepsCoherent(s, last, entry);
  }

  /** Inserting `maxEntries + 1` distinct keys, none re-read, evicts the
      first key and keeps all the others. */
  lemma {:induction false} OverflowEvictsFirstKey<D>(o: CacheOptions, keys: seq<string>, entry: CacheEntry<D>)
    requires NoDup(keys) && o.maxEntries >= 1 && |keys| == o.maxEntries + 1
    ensures var t := SetAll(EmptyState(), o, keys, entry);
      && keys[0] !in t.store
      && forall i :: 1 <= i < |keys| ==> keys[i] in t.store
  {
    var init := keys[..|keys| - 1];
    assert NoDup(init);
    assert keys[|keys| - 1] !in init;
    FillInOrder(o, init, entry);
    SetIntoFull(SetAll(EmptyState(), o, init, entry), o, keys, entry);
  }

  /** One step of the above: the cache holds exactly all keys but the last,
      in that order, and is full. */
  lemma SetIntoFull<D>(s: CacheState<D>, o: CacheOptions, keys: seq<string>, entry: CacheEntry<D>)
    requires |keys| == o.maxEntries + 1 && o.maxEntries >= 1
    requires Inv(s, o) && s.order == keys[..|keys| - 1] && keys[|keys| - 1] !in s.order
    ensures var t := SetSpec(s, o, keys[|keys| - 1], entry);
      && keys[0] !in t.store
      && forall i :: 1 <= i < |keys| ==> keys[i] in t.store
  {
    var last := keys[|keys| - 1];
    SizeIsOrderLength(s.store, s.order);
    SetEvictsLeastRecentlyUsed(s, o, last, entry);
    EvictionKeepsTheRest(s.store, keys, entry);
  }

  /** Dropping the front key of a coherent access list and adding a new
      last key leaves every key but the front in the map. */
  lemma EvictionKeepsTheRest<D>(store: map<string, CacheEntry<D>>, keys: seq<string>, entry: CacheEntry<D>)
    requires |keys| >= 2 && Coherent(store, keys[..|keys| - 1])
    ensures var t := (store - {keys[0]})[keys[|keys| - 1] := entry];
      forall i :: 1 <= i < |keys| ==> keys[i] in t
  {
    var order := keys[..|keys| - 1];
    forall i | 1 <= i < |keys| - 1 ensures keys[i] in store && keys[i] != keys[0] {
      assert keys[i] == order[i] && keys[0] == order[0];
    }
  }

  // ---------------------------------------------------------------------
  // The eviction as written, and what it does to the empty key

  /** `evictLRU` as written: `if (lruKey)` is false for the key "", so the
      empty key is shifted off the access list but not deleted. */
  function EvictLRUAsWritten<D>(s: CacheState<D>): CacheState<D> {
    if s.order == [] then s
    else if s.order[0] == "" then s.(order := s.order[1..])
    else s.(store := s.store - {s.order[0]}, order := s.order[1..])
  }

  function SetAsWritten<D>(s: CacheState<D>, o: CacheOptions, key: string, entry: CacheEntry<D>): CacheState<D> {
    Insert(if MustEvict(s, o, key) then EvictLRUAsWritten(s) else s, key, entry)
  }

  /** With one slot, setting "" and then "a" leaves both keys in the map
      (two entries, above `maxEntries`), and "" is no longer in the access
      list, so it can no longer be evicted until it is read again. */
  lemma EmptyKeyEscapesEviction(entry: CacheEntry<int>)
    ensures var o := CacheOptions(DefaultTtl, 0, 1);
      var s1 := SetAsWritten(EmptyState(), o, "", entry);
      var s2 := SetAsWritten(s1, o, "a", entry);
      && Inv(s1, o)
      && "" in s2.store && "a" in s2.store && |s2.store| == 2
      && "" !in s2.order
      && !Inv(s2, o)
  {
    var o := CacheOptions(DefaultTtl, 0, 1);
    var s1 := SetAsWritten(EmptyState(), o, "", entry);
    assert s1.order == [""];
    assert s1.store.Keys == {""};
    var s2 := SetAsWritten(s1, o, "a", entry);
    assert s2.order == ["a"];
    assert s2.store.Keys == {"", "a"};
  }

  // ---------------------------------------------------------------------
  // The class

  /** `indexOf`: the first position of the key, or -1. */
  method IndexOf(s: seq<string>, key: string) returns (i: int)
    ensures -1 <= i < |s|
    ensures i == -1 <==> key !in s
    ensures i >= 0 ==> s[i] == key && key !in s[..i]
  {
    i := 0;
    while i < |s|
      invariant 0 <= i <= |s|
      invariant key !in s[..i]
    {
      if s[i] == key {
        return;
      }
      assert s[..i + 1] == s[..i] + [s[i]];
      i := i + 1;
    }
    assert s[..i] == s;
    i := -1;
  }

  class MemoryCache<D> {
    var store: map<string, CacheEntry<D>>
    var accessOrder: seq<string>
    var stats: CacheStats
    const options: CacheOptions

    function State(): CacheState<D>
      reads this
    {
      CacheState(store, accessOrder, stats)
    }

    ghost predicate Valid()
      reads this
    {
      Inv(State(), options)
    }

    /** Options left out take the defaults: a TTL of five minutes, no
        stale-while-revalidate window, at most 1000 entries. */
    constructor (ttl: Option<int>, staleWhileRevalidate: Option<int>, maxEntries: Option<int>)
      ensures options == ResolveOptions(ttl, staleWhileRevalidate, maxEntries)
      ensures ttl.None? ==> options.ttl == 300000
      ensures staleWhileRevalidate.None? ==> options.staleWhileRevalidate == 0
      ensures maxEntries.None? ==> options.maxEntries == 1000
      ensures State() == EmptyState()
      ensures Valid()
    {
      store := map[];
      accessOrder := [];
      stats := CacheStats(0, 0, 0);
      options := ResolveOptions(ttl, staleWhileRevalidate, maxEntries);
    }

    method Get(key: string, now: int) returns (r: Option<CacheEntry<D>>)
      requires Valid()
      modifies this
      ensures Valid()
      ensures (State(), r) == GetSpec(old(State()), options, key, now)
    {
      ghost var before := State();
      GetPreservesInv(before, options, key, now);
      if key !in store {
        stats := stats.(misses := stats.misses + 1);
        r := None;
        assert State() == GetSpec(before, options, key, now).0;
        return;
      }
      var entry := store[key];
      if now > entry.expiresAt + options.staleWhileRevalidate {
        store := store - {key};
        RemoveFromAccessOrder(key);
        stats := CacheStats(stats.hits, stats.misses + 1, |store|);
        r := None;
        assert State() == GetSpec(before, options, key, now).0;
        return;
      }
      UpdateAccessOrder(key);
      stats := stats.(hits := stats.hits + 1);
      r := Some(entry);
      assert State() == GetSpec(before, options, key, now).0;
    }

    method Set(key: string, entry: CacheEntry<D>)
      requires Valid()
      modifies this
      ensures Valid()
      ensures State() == SetSpec(old(State()), options, key, entry)
    {
      SetPreservesInv(State(), options, key, entry);
      if key !in store && |store| >= options.maxEntries {
        EvictLRU();
      }
      store := store[key := entry];
      UpdateAccessOrder(key);
      stats := stats.(entries := |store|);
    }

    method Delete(key: string)
      requires Valid()
      modifies this
      ensures Valid()
      ensures State() == DeleteSpec(old(State()), key)
    {
      DeletePreservesInv(State(), options, key);
      store := store - {key};
      RemoveFromAccessOrder(key);
      stats := stats.(entries := |store|);
    }

    method Clear()
      requires Valid()
      modifies this
      ensures Valid()
      ensures State() == ClearSpec(old(State()))
    {
      store := map[];
      accessOrder := [];
      stats := CacheStats(0, 0, 0);
    }

    /** `has` is `get(key) !== null`, with all of `get`'s effects. */
    method Has(key: string, now: int) returns (b: bool)
      requires Valid()
      modifies this
      ensures Valid()
      ensures State() == GetSpec(old(State()), options, key, now).0
      ensures b == GetSpec(old(State()), options, key, now).1.Some?
    {
      var entry := Get(key, now);
      b := entry.Some?;
    }

    /** `stats` returns a copy of the counters. */
    method Stats() returns (s: CacheStats)
      requires Valid()
      ensures s == stats && s.entries == |store|
    {
      s := stats;
    }

    method UpdateAccessOrder(key: string)
      modifies this`accessOrder
      ensures accessOrder == Touch(old(accessOrder), key)
    {
      RemoveFromAccessOrder(key);
      accessOrder := accessOrder + [key];
    }

    method RemoveFromAccessOrder(key: string)
      modifies this`accessOrder
      ensures accessOrder == RemoveFirst(old(accessOrder), key)
    {
      var index := IndexOf(accessOrder, key);
      if index != -1 {
        RemoveFirstAt(accessOrder, key, index);
        accessOrder := accessOrder[..index] + accessOrder[index + 1..];
      } else {
        RemoveFirstAbsent(accessOrder, key);
      }
    }

    /** Shift the least recently used key off the access list and delete
        it. The shifted key is tested for being present rather than for
        truthiness (see `EmptyKeyEscapesEviction`). */
    method EvictLRU()
      modifies this`store, this`accessOrder
      ensures State() == EvictSpec(old(State()))
    {
      if accessOrder != [] {
        var lruKey := accessOrder[0];
        accessOrder := accessOrder[1..];
        store := store - {lruKey};
      }
    }
  }

  lemma {:induction false} RemoveFirstAbsent(s: seq<string>, k: string)
    requires k !in s
    ensures RemoveFirst(s, k) == s
  {
    if s != [] {
      RemoveFirstAbsent(s[1..], k);
    }
  }
}
