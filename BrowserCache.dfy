/** The client's offline cache: entries kept in the browser's local storage
    under a `dreampos_` key, each with the time it was written and a time to
    live. A read at or before the end of that time returns the data; a read
    after it deletes the entry and returns nothing. */
module BrowserCache {
  import opened Wrappers
  import opened Text
  import opened Schema

  const Prefix: string := "dreampos_"

  /** Five minutes, the default time to live. */
  const DefaultTtl: int := 5 * 60 * 1000

  /** A day, the time to live of the cached settings. */
  const SettingsTtl: int := 24 * 60 * 60 * 1000

  const ProductsKey: string := "products"
  const CustomersKey: string := "customers"
  const SettingsKey: string := "settings"

  /** What the client caches. */
  datatype CacheData =
    | ProductList(products: seq<CachedProduct>)
    | CustomerList(customers: seq<CachedCustomer>)
    | StoreSettings(settings: PosSettings)

  /** A stored entry, as its JSON text reads back. */
  datatype CacheItem = CacheItem(data: CacheData, timestamp: Millis, ttl: int)

  /** The storage key of a cache key. */
  function StorageKey(key: string): (k: string)
    ensures StartsWith(k, Prefix)
  {
    Prefix + key
  }

  /** Distinct cache keys never share a storage slot. */
  lemma StorageKeyInjective(a: string, b: string)
    requires a != b
    ensures StorageKey(a) != StorageKey(b)
  {
    assert StorageKey(a)[|Prefix|..] == a;
    assert StorageKey(b)[|Prefix|..] == b;
  }

  /** An entry read at `now` has outlived its time to live. */
  predicate Expired(item: CacheItem, now: Millis) {
    now - item.timestamp > item.ttl
  }

  /** What `get(key)` returns when the storage holds `store`. */
  function Lookup(store: map<string, CacheItem>, key: string, now: Millis): (r: Option<CacheData>)
    ensures r.Some? <==> StorageKey(key) in store && !Expired(store[StorageKey(key)], now)
    ensures r.Some? ==> r.value == store[StorageKey(key)].data
  {
    var k := StorageKey(key);
    if k !in store || Expired(store[k], now) then None else Some(store[k].data)
  }

  /** The storage after `get(key)`: an expired entry is deleted, nothing else changes. */
  function AfterLookup(store: map<string, CacheItem>, key: string, now: Millis): (r: map<string, CacheItem>)
    ensures forall k :: k in r <==> k in store && !(k == StorageKey(key) && Expired(store[k], now))
    ensures forall k :: k in r ==> r[k] == store[k]
  {
    var k := StorageKey(key);
    if k in store && Expired(store[k], now) then store - {k} else store
  }

  /** The storage after `clear()`: only the keys of other applications remain. */
  function Cleared(store: map<string, CacheItem>): (r: map<string, CacheItem>)
    ensures forall k :: k in r <==> k in store && !StartsWith(k, Prefix)
  {
    map k | k in store && !StartsWith(k, Prefix) :: store[k]
  }

  /** Data written at `t` with time to live `ttl` is read back at `t + age`
      exactly when `age <= ttl`, whatever else the storage held. */
  lemma ReadBackWithinTtl(store: map<string, CacheItem>, key: string, d: CacheData, t: Millis, ttl: int, age: int)
    ensures Lookup(store[StorageKey(key) := CacheItem(d, t, ttl)], key, t + age) == (if age <= ttl then Some(d) else None)
  {
  }

  /** Writing one key leaves what every other key reads. */
  lemma WriteLeavesOtherKeys(store: map<string, CacheItem>, key: string, other: string, item: CacheItem, now: Millis)
    requires other != key
    ensures Lookup(store[StorageKey(key) := item], other, now) == Lookup(store, other, now)
  {
    StorageKeyInjective(key, other);
  }

  /** Once an expired entry has been read, later reads find nothing until
      it is written again. */
  lemma ExpiredStaysGone(store: map<string, CacheItem>, key: string, now: Millis, later: Millis)
    requires StorageKey(key) in store && Expired(store[StorageKey(key)], now)
    ensures StorageKey(key) !in AfterLookup(store, key, now)
    ensures Lookup(AfterLookup(store, key, now), key, later).None?
  {
  }

  /** After `clear()` no cache key reads anything. */
  lemma ClearedReadsNothing(store: map<string, CacheItem>, key: string, now: Millis)
    ensures Lookup(Cleared(store), key, now).None?
  {
    assert StartsWith(StorageKey(key), Prefix);
  }

  /** The settings outlive the product and customer lists: an hour after
      they were written the settings still read back and the lists do not. */
  lemma SettingsOutliveLists(store: map<string, CacheItem>, s: PosSettings, ps: seq<CachedProduct>, t: Millis)
    ensures var hour := 60 * 60 * 1000;
      && Lookup(store[StorageKey(SettingsKey) := CacheItem(StoreSettings(s), t, SettingsTtl)], SettingsKey, t + hour) == Some(StoreSettings(s))
      && Lookup(store[StorageKey(ProductsKey) := CacheItem(ProductList(ps), t, DefaultTtl)], ProductsKey, t + hour).None?
  {
    ReadBackWithinTtl(store, SettingsKey, StoreSettings(s), t, SettingsTtl, 60 * 60 * 1000);
    ReadBackWithinTtl(store, ProductsKey, ProductList(ps), t, DefaultTtl, 60 * 60 * 1000);
  }

  /** The browser's local storage, shared by every cache object and by
      other applications of the same origin. */
  class LocalStorage {
    var items: map<string, CacheItem>

    constructor (initial: map<string, CacheItem>)
      ensures items == initial
    {
      items := initial;
    }
  }

  class LocalStorageCache {
    const storage: LocalStorage

    constructor (storage: LocalStorage)
      ensures this.storage == storage
    {
      this.storage := storage;
    }

    /** `set(key, data, ttl)`: the entry is written, stamped with `now`. */
    method Set(key: string, data: CacheData, ttl: int, now: Millis)
      modifies storage`items
      ensures storage.items == old(storage.items)[StorageKey(key) := CacheItem(data, now, ttl)]
    {
      storage.items := storage.items[StorageKey(key) := CacheItem(data, now, ttl)];
    }

    /** `get(key)` */
    method Get(key: string, now: Millis) returns (r: Option<CacheData>)
      modifies storage`items
      ensures r == Lookup(old(storage.items), key, now)
      ensures storage.items == AfterLookup(old(storage.items), key, now)
    {
      var k := StorageKey(key);
      if k !in storage.items {
        return None;
      }
      var item := storage.items[k];
      if now - item.timestamp > item.ttl {
        Remove(key);
        return None;
      }
      return Some(item.data);
    }

    /** `remove(key)` */
    method Remove(key: string)
      modifies storage`items
      ensures storage.items == old(storage.items) - {StorageKey(key)}
    {
      storage.items := storage.items - {StorageKey(key)};
    }

    /** `clear()`: every key of the storage is visited and those with the
        cache prefix are deleted. */
    method Clear()
      modifies storage`items
      ensures storage.items == Cleared(old(storage.items))
    {
      var keys := storage.items.Keys;
      while keys != {}
        invariant keys <= old(storage.items).Keys
        invariant forall k :: k in storage.items <==> k in old(storage.items) && (k in keys || !StartsWith(k, Prefix))
        invariant forall k :: k in storage.items ==> storage.items[k] == old(storage.items)[k]
        decreases keys
      {
        var k :| k in keys;
        if StartsWith(k, Prefix) {
          storage.items := storage.items - {k};
        }
        keys := keys - {k};
      }
    }

    method CacheProducts(products: seq<CachedProduct>, now: Millis)
      modifies storage`items
      ensures storage.items == old(storage.items)[StorageKey(ProductsKey) := CacheItem(ProductList(products), now, DefaultTtl)]
    {
      Set(ProductsKey, ProductList(products), DefaultTtl, now);
    }

    method GetCachedProducts(now: Millis) returns (r: Option<CacheData>)
      modifies storage`items
      ensures r == Lookup(old(storage.items), ProductsKey, now)
      ensures storage.items == AfterLookup(old(storage.items), ProductsKey, now)
    {
      r := Get(ProductsKey, now);
    }

    method CacheCustomers(customers: seq<CachedCustomer>, now: Millis)
      modifies storage`items
      ensures storage.items == old(storage.items)[StorageKey(CustomersKey) := CacheItem(CustomerList(customers), now, DefaultTtl)]
    {
      Set(CustomersKey, CustomerList(customers), DefaultTtl, now);
    }

    method GetCachedCustomers(now: Millis) returns (r: Option<CacheData>)
      modifies storage`items
      ensures r == Lookup(old(storage.items), CustomersKey, now)
      ensures storage.items == AfterLookup(old(storage.items), CustomersKey, now)
    {
      r := Get(CustomersKey, now);
    }

    /** The settings are kept for a day. */
    method CacheSettings(settings: PosSettings, now: Millis)
      modifies storage`items
      ensures storage.items == old(storage.items)[StorageKey(SettingsKey) := CacheItem(StoreSettings(settings), now, SettingsTtl)]
    {
      Set(SettingsKey, StoreSettings(settings), SettingsTtl, now);
    }

    method GetCachedSettings(now: Millis) returns (r: Option<CacheData>)
      modifies storage`items
      ensures r == Lookup(old(storage.items), SettingsKey, now)
      ensures storage.items == AfterLookup(old(storage.items), SettingsKey, now)
    {
      r := Get(SettingsKey, now);
    }
  }

  /** The class-level slot `getInstance` fills on first use. */
  class CacheRegistry {
    var instance: LocalStorageCache?

    constructor ()
      ensures instance == null
    {
      instance := null;
    }

    /** `getInstance()`: the first call creates the one cache object, every
        later call returns that same object. */
    method GetInstance(storage: LocalStorage) returns (c: LocalStorageCache)
      modifies this`instance
      ensures old(instance) != null ==> c == old(instance)
      ensures old(instance) == null ==> fresh(c) && c.storage == storage
      ensures instance == c
    {
      if instance == null {
        instance := new LocalStorageCache(storage);
      }
      c := instance;
    }
  }
}
