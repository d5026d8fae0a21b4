/**
 * The cache-aside pattern the catalog services share: a list per restaurant is read from
 * the cache when it is there and decodes, and otherwise from the store and then written to
 * the cache; a successful write to the store deletes the restaurant's cache key. The store
 * is not modelled; its answer is a function parameter, consulted only on a miss.
 */
module CacheAside {
  import opened Wrappers
  import opened Strings
  import opened Redis

  /** The key prefixes of the three cached lists. */
  const ProductsPrefix: string := "products:"
  const CategoriesPrefix: string := "categories:"
  const SettingsPrefix: string := "settings:"

  /** `prefix + strconv.Itoa(restaurantID)`. */
  function CacheKey(prefix: string, restaurantId: int): string {
    prefix + Itoa(restaurantId)
  }

  /** Each restaurant has its own key. */
  lemma CacheKeysPerRestaurant(prefix: string, a: int, b: int)
    requires a != b
    ensures CacheKey(prefix, a) != CacheKey(prefix, b)
  {
    if CacheKey(prefix, a) == CacheKey(prefix, b) {
      PrefixedItoaInjective(prefix, a, b);
    }
  }

  /** The three services' keys never collide, whatever the restaurants. */
  lemma KeySpacesDisjoint(a: int, b: int)
    ensures CacheKey(ProductsPrefix, a) != CacheKey(CategoriesPrefix, b)
    ensures CacheKey(ProductsPrefix, a) != CacheKey(SettingsPrefix, b)
    ensures CacheKey(CategoriesPrefix, a) != CacheKey(SettingsPrefix, b)
  {
    assert CacheKey(ProductsPrefix, a)[0] == 'p';
    assert CacheKey(CategoriesPrefix, b)[0] == 'c' && CacheKey(CategoriesPrefix, a)[0] == 'c';
    assert CacheKey(SettingsPrefix, b)[0] == 's';
  }

  /** The list the cache holds under `key`: present, not the empty string, and decodable. */
  function Cached<T>(data: map<string, Entry>, key: string, decode: Entry -> Option<seq<T>>): Option<seq<T>> {
    if key in data && data[key] != Text("") then decode(data[key]) else None
  }

  /** The answer of a cached read and the cache after it. */
  datatype Read<T> = Read(result: Result<seq<T>>, data: map<string, Entry>)

  /** GetAll: a hit is returned as it is; on a miss the store's list is returned and cached. */
  function ReadThrough<T>(data: map<string, Entry>, key: string, decode: Entry -> Option<seq<T>>,
                          encode: seq<T> -> Entry, fetched: Result<seq<T>>): (o: Read<T>)
    ensures Cached(data, key, decode).Some? ==> o == Read(Ok(Cached(data, key, decode).value), data)
    ensures Cached(data, key, decode).None? ==> o.result == fetched
    ensures Cached(data, key, decode).None? && fetched.Ok? ==> o.data == data[key := encode(fetched.value)]
    ensures fetched.Err? ==> o.data == data
  {
    match Cached(data, key, decode)
    case Some(list) => Read(Ok(list), data)
    case None =>
      if fetched.Err? then Read(fetched, data)
      else Read(fetched, data[key := encode(fetched.value)])
  }

  /** The cache after a write: the key is deleted exactly when the store call succeeded. */
  function AfterWrite(data: map<string, Entry>, key: string, succeeded: bool): (d: map<string, Entry>)
    ensures key in d <==> key in data && !succeeded
    ensures forall k :: k != key ==> (k in d <==> k in data) && (k in d ==> d[k] == data[k])
  {
    if succeeded then data - {key} else data
  }

  /** A hit never consults the store: any store answer gives the same read. */
  lemma HitIgnoresStore<T>(data: map<string, Entry>, key: string, decode: Entry -> Option<seq<T>>,
                           encode: seq<T> -> Entry, f1: Result<seq<T>>, f2: Result<seq<T>>)
    requires Cached(data, key, decode).Some?
    ensures ReadThrough(data, key, decode, encode, f1) == ReadThrough(data, key, decode, encode, f2)
  {
  }

  /**
   * A miss fills the cache, so the next read is a hit giving the same list, whatever the
   * store would say by then (the cache may serve a stale list until a write deletes it).
   */
  lemma MissThenHit<T>(data: map<string, Entry>, key: string, decode: Entry -> Option<seq<T>>,
                       encode: seq<T> -> Entry, f1: Result<seq<T>>, f2: Result<seq<T>>)
    requires f1.Ok? && encode(f1.value) != Text("") && decode(encode(f1.value)) == Some(f1.value)
    ensures var first := ReadThrough(data, key, decode, encode, f1);
            ReadThrough(first.data, key, decode, encode, f2) == first
  {
  }

  /** After a successful write the next read goes to the store and returns its answer. */
  lemma WriteThenReadIsFresh<T>(data: map<string, Entry>, key: string, decode: Entry -> Option<seq<T>>,
                                encode: seq<T> -> Entry, fetched: Result<seq<T>>)
    ensures ReadThrough(AfterWrite(data, key, true), key, decode, encode, fetched).result == fetched
  {
  }

  /** A read touches only its own key. */
  lemma ReadKeepsOtherKeys<T>(data: map<string, Entry>, key: string, decode: Entry -> Option<seq<T>>,
                              encode: seq<T> -> Entry, fetched: Result<seq<T>>, other: string)
    requires other != key
    ensures var d := ReadThrough(data, key, decode, encode, fetched).data;
            (other in d <==> other in data) && (other in d ==> d[other] == data[other])
  {
  }

  /** GetAll against the cache client; `fetch` is the store query, issued only on a miss. */
  method GetAll<T>(cache: Client, key: string, decode: Entry -> Option<seq<T>>, encode: seq<T> -> Entry,
                   fetch: () -> Result<seq<T>>) returns (r: Result<seq<T>>)
    modifies cache
    ensures Read(r, cache.data) == ReadThrough(old(cache.data), key, decode, encode, fetch())
  {
    var cached := cache.Get(key);
    if cached.Some? && cached.value != Text("") {
      var decoded := decode(cached.value);
      if decoded.Some? {
        return Ok(decoded.value);
      }
    }
    r := fetch();
    if r.Err? {
      return;
    }
    cache.Set(key, encode(r.value));
  }

  /** invalidateCache: delete the key. */
  method Invalidate(cache: Client, key: string)
    modifies cache
    ensures cache.data == AfterWrite(old(cache.data), key, true)
  {
    cache.Del(key);
  }
}
