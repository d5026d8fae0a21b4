/**
 * The settings service: a restaurant's settings are cached under "settings:<id>"; every
 * successful write deletes that key. The settings store's queries are not modelled; their
 * answers are function parameters.
 */
module SettingsService {
  import opened Wrappers
  import opened Strings
  import opened Model
  import opened Redis
  import opened CacheAside

  const ErrKeyRequired: string := "setting key is required"

  function Key(restaurantId: int): string {
    CacheKey(SettingsPrefix, restaurantId)
  }

  /** The JSON form of a settings list in the cache. */
  function Encode(settings: seq<Setting>): Entry {
    SettingsJson(settings)
  }

  /** json.Unmarshal into []model.Setting: only a settings list decodes. */
  function Decode(e: Entry): Option<seq<Setting>> {
    if e.SettingsJson? then Some(e.settings) else None
  }

  /** What the cache writes, it reads back. */
  lemma DecodeEncode(settings: seq<Setting>)
    ensures Encode(settings) != Text("") && Decode(Encode(settings)) == Some(settings)
  {
  }

  /** GetAll: cache first, then the store. */
  method GetAll(cache: Client, restaurantId: int, getAll: int -> Result<seq<Setting>>) returns (r: Result<seq<Setting>>)
    modifies cache
    ensures Read(r, cache.data) == ReadThrough(old(cache.data), Key(restaurantId), Decode, Encode, getAll(restaurantId))
  {
    r := CacheAside.GetAll(cache, Key(restaurantId), Decode, Encode, () => getAll(restaurantId));
  }

  /**
   * Upsert: a blank key reaches neither the store nor the cache; otherwise the store's
   * upsert runs, and the cache key goes only if that worked.
   */
  method Upsert(cache: Client, restaurantId: int, key: string, value: string,
                upsert: (int, string, string) -> Result<Setting>) returns (r: Result<Setting>)
    modifies cache
    ensures IsBlank(key) ==> r == Err(ErrKeyRequired)
    ensures !IsBlank(key) ==> r == upsert(restaurantId, key, value)
    ensures cache.data == AfterWrite(old(cache.data), Key(restaurantId), r.Ok?)
  {
    if IsBlank(key) {
      return Err(ErrKeyRequired);
    }
    r := upsert(restaurantId, key, value);
    if r.Err? {
      return;
    }
    Invalidate(cache, Key(restaurantId));
  }

  /** BulkUpsert: no key validation; the cache key goes only if the store call worked. */
  method BulkUpsert(cache: Client, restaurantId: int, settings: map<string, string>,
                    bulkUpsert: (int, map<string, string>) -> Result<seq<Setting>>) returns (r: Result<seq<Setting>>)
    modifies cache
    ensures r == bulkUpsert(restaurantId, settings)
    ensures cache.data == AfterWrite(old(cache.data), Key(restaurantId), r.Ok?)
  {
    r := bulkUpsert(restaurantId, settings);
    if r.Err? {
      return;
    }
    Invalidate(cache, Key(restaurantId));
  }

  /** Delete: the key goes only if the store delete worked. */
  method Delete(cache: Client, restaurantId: int, key: string, delete: (int, string) -> Outcome) returns (r: Outcome)
    modifies cache
    ensures r == delete(restaurantId, key)
    ensures cache.data == AfterWrite(old(cache.data), Key(restaurantId), r.Pass?)
  {
    r := delete(restaurantId, key);
    if r.Fail? {
      return;
    }
    Invalidate(cache, Key(restaurantId));
  }
}
