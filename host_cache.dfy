/**
 The process-wide cache of resolved host names (_HostCache): each name maps
 to the addresses a completed master lookup produced and the time stamp of
 its completion. Time is an integer number of milliseconds.

 This module states what one sweep (_ExpireCacheEntries) and one insertion
 (the alias loop of _MasterLookupCallBack) do to the cache, as functions of
 the old cache; the Resolver class performs them in place.
 */
module HostCache {
  import opened HostTypes

  const CacheMaxEntries: nat := 25
  /** _kCFHostCacheTimeout, one second. */
  const CacheTimeout: nat := 1000

  datatype Entry = Entry(addrs: seq<Data>, stamp: int)

  type Cache = map<string, Entry>

  /** How long ago the entry was made; the absolute value copes with clock changes. */
  function Age(now: int, stamp: int): nat {
    if now >= stamp then now - stamp else stamp - now
  }

  predicate Expired(e: Entry, now: int) {
    Age(now, e.stamp) >= CacheTimeout
  }

  /** The entries a sweep at `now` keeps before it considers the size bound. */
  function Fresh(c: Cache, now: int): Cache {
    map k | k in c && !Expired(c[k], now) :: c[k]
  }

  /** `order` lists the keys of `c`, each once, in the dictionary's enumeration order. */
  ghost predicate IsEnumeration(order: seq<string>, c: Cache) {
    (forall k :: k in c <==> k in order)
    && (forall i, j :: 0 <= i < j < |order| ==> order[i] != order[j])
  }

  /**
   CFDictionaryGetKeysAndValues: the keys of the cache in some order, each
   exactly once.
   */
  method EnumerateKeys(c: Cache) returns (keys: seq<string>)
    ensures IsEnumeration(keys, c)
  {
    keys := [];
    var rest := c.Keys;
    while rest != {}
      invariant forall k :: k in c <==> k in rest || k in keys
      invariant forall k :: k in rest ==> k !in keys
      invariant forall i, j :: 0 <= i < j < |keys| ==> keys[i] != keys[j]
      decreases |rest|
    {
      var k :| k in rest;
      keys := keys + [k];
      rest := rest - {k};
    }
  }

  /**
   The bookkeeping of the sweep loop after its first n keys: the index j of
   the oldest surviving entry met so far and its age. An entry replaces the
   current oldest only when it is strictly older, and the initial oldest age
   is 0 with index 0.
   */
  function ScanOldest(c: Cache, order: seq<string>, now: int, n: nat): (r: (nat, nat))
    requires n <= |order|
    requires forall k :: k in order ==> k in c
    ensures n == 0 ==> r == (0, 0)
    ensures n > 0 ==> r.0 < n
  {
    if n == 0 then (0, 0)
    else
      var (j, oldest) := ScanOldest(c, order, now, n - 1);
      var since := Age(now, c[order[n - 1]].stamp);
      if since >= CacheTimeout then (j, oldest)
      else if since > oldest then (n - 1, since)
      else (j, oldest)
  }

  lemma NonEmptyMapHasKey(m: Cache)
    requires |m| > 0
    ensures exists k :: k in m
  {
  }

  /**
   One sweep: drop every entry at least CacheTimeout old, and then, if at
   least CacheMaxEntries entries remain, drop the one the scan recorded.
   */
  function Swept(c: Cache, order: seq<string>, now: int): Cache
    requires IsEnumeration(order, c)
  {
    var survivors := Fresh(c, now);
    if |survivors| >= CacheMaxEntries then
      NonEmptyMapHasKey(survivors);
      var k :| k in survivors;
      assert k in order;
      survivors - {order[ScanOldest(c, order, now, |order|).0]}
    else
      survivors
  }

  /** `after` is the result of one sweep of `before` at `now`, in some enumeration order. */
  ghost predicate SweptFrom(before: Cache, after: Cache, now: int) {
    exists order :: IsEnumeration(order, before) && after == Swept(before, order, now)
  }

  /**
   What the scan records: when some surviving entry has a positive age, j is
   the first surviving entry of greatest age; otherwise the recorded age is
   0 and j is 0, whatever entry sits there.
   */
  lemma {:induction false} ScanOldestFindsFirstOldest(c: Cache, order: seq<string>, now: int, n: nat)
    requires n <= |order|
    requires forall k :: k in order ==> k in c
    ensures var (j, oldest) := ScanOldest(c, order, now, n);
      && (forall i :: 0 <= i < n && !Expired(c[order[i]], now) ==> Age(now, c[order[i]].stamp) <= oldest)
      && (oldest == 0 ==> j == 0)
      && (oldest > 0 ==>
            j < n && !Expired(c[order[j]], now) && Age(now, c[order[j]].stamp) == oldest
            && forall i :: 0 <= i < j && !Expired(c[order[i]], now) ==> Age(now, c[order[i]].stamp) < oldest)
  {
    if n > 0 {
      ScanOldestFindsFirstOldest(c, order, now, n - 1);
    }
  }

  /**
   A sweep keeps only unexpired entries, unchanged, removes every expired
   one, and evicts at most one unexpired entry, and only when at least
   CacheMaxEntries of them survived the expiry pass.
   */
  lemma SweepKeepsOnlyFreshEntries(c: Cache, order: seq<string>, now: int)
    requires IsEnumeration(order, c)
    ensures var s := Swept(c, order, now);
      && (forall k :: k in s ==> k in c && s[k] == c[k] && !Expired(c[k], now))
      && (forall k :: k in c && !Expired(c[k], now) && k !in s ==>
            |Fresh(c, now)| >= CacheMaxEntries && k == order[ScanOldest(c, order, now, |order|).0])
  {
  }

  /**
   When the size bound forces an eviction and some survivor has a positive
   age, the entry evicted is the one the scan recorded, which is the first
   (in enumeration order) among the oldest survivors (see
   ScanOldestFindsFirstOldest), and the cache shrinks to one below the
   survivors.
   */
  lemma SweepEvictsFirstOldest(c: Cache, order: seq<string>, now: int)
    requires IsEnumeration(order, c)
    requires |Fresh(c, now)| >= CacheMaxEntries
    requires exists k :: k in c && !Expired(c[k], now) && Age(now, c[k].stamp) > 0
    ensures exists victim :: (
              && victim == order[ScanOldest(c, order, now, |order|).0]
              && victim in Fresh(c, now)
              && Swept(c, order, now) == Fresh(c, now) - {victim}
              && |Swept(c, order, now)| == |Fresh(c, now)| - 1
              && forall k :: k in Fresh(c, now) ==> Age(now, c[k].stamp) <= Age(now, c[victim].stamp))
  {
    var (j, oldest) := ScanOldest(c, order, now, |order|);
    ScanOldestFindsFirstOldest(c, order, now, |order|);
    var k :| k in c && !Expired(c[k], now) && Age(now, c[k].stamp) > 0;
    var i :| 0 <= i < |order| && order[i] == k;
    assert oldest > 0;
    var victim := order[j];
    assert victim in Fresh(c, now);
    forall k' | k' in Fresh(c, now)
      ensures Age(now, c[k'].stamp) <= Age(now, c[victim].stamp)
    {
      var i' :| 0 <= i' < |order| && order[i'] == k';
    }
  }

  /**
   A quirk of the scan: when every survivor has age 0 (all were stamped in
   the current instant) the recorded index stays 0. If the first enumerated
   entry has expired, the eviction removes a key that is already gone, and
   the sweep leaves CacheMaxEntries or more entries behind.
   */
  lemma SweepMayLeaveCacheFull(c: Cache, order: seq<string>, now: int)
    requires IsEnumeration(order, c)
    requires |order| > 0 && Expired(c[order[0]], now)
    requires forall k :: k in c && !Expired(c[k], now) ==> c[k].stamp == now
    ensures Swept(c, order, now) == Fresh(c, now)
  {
    ScanOldestFindsFirstOldest(c, order, now, |order|);
  }

  /**
   Whatever the enumeration order, a swept cache holds only unexpired
   entries of the old cache, unchanged, and below the size bound the sweep
   removes nothing else: a lookup that follows a sweep never finds an
   expired entry.
   */
  lemma SweptEntriesAreFresh(before: Cache, after: Cache, now: int)
    requires SweptFrom(before, after, now)
    ensures forall k :: k in after ==> k in before && after[k] == before[k] && !Expired(before[k], now)
    ensures |Fresh(before, now)| < CacheMaxEntries ==> after == Fresh(before, now)
  {
    var order :| IsEnumeration(order, before) && after == Swept(before, order, now);
    SweepKeepsOnlyFreshEntries(before, order, now);
  }

  /** Insertion of a completed lookup under each of its names, keeping any existing entry. */
  function AddAll(c: Cache, names: seq<string>, e: Entry): Cache
  {
    if |names| == 0 then c
    else
      var c' := AddAll(c, names[..|names| - 1], e);
      var k := names[|names| - 1];
      if k in c' then c' else c'[k := e]
  }

  /**
   Insertion never replaces or removes an entry and adds the new entry under
   exactly the listed names that were absent.
   */
  lemma {:induction false} AddAllAddsAbsentNames(c: Cache, names: seq<string>, e: Entry)
    ensures var r := AddAll(c, names, e);
      && (forall k :: k in c ==> k in r && r[k] == c[k])
      && (forall k :: k in names && k !in c ==> k in r && r[k] == e)
      && (forall k :: k in r ==> k in c || k in names)
    decreases |names|
  {
    if |names| > 0 {
      var init := names[..|names| - 1];
      AddAllAddsAbsentNames(c, init, e);
      forall k | k in names
        ensures k in init || k == names[|names| - 1]
      {
        var i :| 0 <= i < |names| && names[i] == k;
        if i < |names| - 1 {
          assert init[i] == k;
        }
      }
    }
  }
}
