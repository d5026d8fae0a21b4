/**
 * The category service: a restaurant's category list is cached under "categories:<id>";
 * every successful write deletes that key. The category store's queries are not modelled;
 * their answers are function parameters.
 */
module CategoryService {
  import opened Wrappers
  import opened Strings
  import opened Model
  import opened Redis
  import opened CacheAside

  const ErrNameRequired: string := "category name is required"

  function Key(restaurantId: int): string {
    CacheKey(CategoriesPrefix, restaurantId)
  }

  /** The JSON form of a category list in the cache. */
  function Encode(categories: seq<Category>): Entry {
    CategoriesJson(categories)
  }

  /** json.Unmarshal into []model.Category: only a category list decodes. */
  function Decode(e: Entry): Option<seq<Category>> {
    if e.CategoriesJson? then Some(e.categories) else None
  }

  /** What the cache writes, it reads back. */
  lemma DecodeEncode(categories: seq<Category>)
    ensures Encode(categories) != Text("") && Decode(Encode(categories)) == Some(categories)
  {
  }

  /** GetAll: cache first, then the store. */
  method GetAll(cache: Client, restaurantId: int, getAll: int -> Result<seq<Category>>) returns (r: Result<seq<Category>>)
    modifies cache
    ensures Read(r, cache.data) == ReadThrough(old(cache.data), Key(restaurantId), Decode, Encode, getAll(restaurantId))
  {
    r := CacheAside.GetAll(cache, Key(restaurantId), Decode, Encode, () => getAll(restaurantId));
  }

  /**
   * Create: a blank name reaches neither the store nor the cache; otherwise the category is
   * inserted under the path's restaurant, and the cache key goes only if that worked.
   */
  method Create(cache: Client, restaurantId: int, c: Category, insert: Category -> Result<Category>)
    returns (r: Result<Category>)
    modifies cache
    ensures IsBlank(c.name) ==> r == Err(ErrNameRequired)
    ensures !IsBlank(c.name) ==> r == insert(c.(restaurantId := restaurantId))
    ensures cache.data == AfterWrite(old(cache.data), Key(restaurantId), r.Ok?)
  {
    if IsBlank(c.name) {
      return Err(ErrNameRequired);
    }
    r := insert(c.(restaurantId := restaurantId));
    if r.Err? {
      return;
    }
    Invalidate(cache, Key(restaurantId));
  }

  /** Update: no validation; the key goes only if the store update worked. */
  method Update(cache: Client, restaurantId: int, id: int, c: Category, update: (int, int, Category) -> Result<Category>)
    returns (r: Result<Category>)
    modifies cache
    ensures r == update(restaurantId, id, c)
    ensures cache.data == AfterWrite(old(cache.data), Key(restaurantId), r.Ok?)
  {
    r := update(restaurantId, id, c);
    if r.Err? {
      return;
    }
    Invalidate(cache, Key(restaurantId));
  }

  /** Delete: the key goes only if the store delete worked. */
  method Delete(cache: Client, restaurantId: int, id: int, delete: (int, int) -> Outcome) returns (r: Outcome)
    modifies cache
    ensures r == delete(restaurantId, id)
    ensures cache.data == AfterWrite(old(cache.data), Key(restaurantId), r.Pass?)
  {
    r := delete(restaurantId, id);
    if r.Fail? {
      return;
    }
    Invalidate(cache, Key(restaurantId));
  }
}
