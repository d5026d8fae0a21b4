/**
 * The product service: a restaurant's product list is cached under "products:<id>"; every
 * successful write deletes that key. The product store's queries are not modelled; their
 * answers are function parameters.
 */
module ProductService {
  import opened Wrappers
  import opened Strings
  import opened Model
  import opened Redis
  import opened CacheAside

  const ErrNameRequired: string := "product name is required"
  const ErrPriceNotPositive: string := "product price must be greater than 0"
  const ErrCategoryRequired: string := "category id is required"

  function Key(restaurantId: int): string {
    CacheKey(ProductsPrefix, restaurantId)
  }

  /** The JSON form of a product list in the cache. */
  function Encode(products: seq<Product>): Entry {
    ProductsJson(products)
  }

  /** json.Unmarshal into []model.Product: only a product list decodes. */
  function Decode(e: Entry): Option<seq<Product>> {
    if e.ProductsJson? then Some(e.products) else None
  }

  /** What the cache writes, it reads back. */
  lemma DecodeEncode(products: seq<Product>)
    ensures Encode(products) != Text("") && Decode(Encode(products)) == Some(products)
  {
  }

  /** Create's guards, in order; None when the product passes them all. */
  function CreateError(p: Product): (e: Option<string>)
    ensures IsBlank(p.name) ==> e == Some(ErrNameRequired)
    ensures !IsBlank(p.name) && p.price <= 0 ==> e == Some(ErrPriceNotPositive)
    ensures !IsBlank(p.name) && p.price > 0 && p.categoryId == 0 ==> e == Some(ErrCategoryRequired)
    ensures e.None? <==> !IsBlank(p.name) && p.price > 0 && p.categoryId != 0
  {
    if IsBlank(p.name) then Some(ErrNameRequired)
    else if p.price <= 0 then Some(ErrPriceNotPositive)
    else if p.categoryId == 0 then Some(ErrCategoryRequired)
    else None
  }

  /** GetAll: cache first, then the store. */
  method GetAll(cache: Client, restaurantId: int, getAll: int -> Result<seq<Product>>) returns (r: Result<seq<Product>>)
    modifies cache
    ensures Read(r, cache.data) == ReadThrough(old(cache.data), Key(restaurantId), Decode, Encode, getAll(restaurantId))
  {
    r := CacheAside.GetAll(cache, Key(restaurantId), Decode, Encode, () => getAll(restaurantId));
  }

  /**
   * Create: a rejected product reaches neither the store nor the cache; an accepted one
   * is inserted under the path's restaurant, and the cache key goes only if that worked.
   */
  method Create(cache: Client, restaurantId: int, p: Product, insert: Product -> Result<Product>)
    returns (r: Result<Product>)
    modifies cache
    ensures CreateError(p).Some? ==> r == Err(CreateError(p).value)
    ensures CreateError(p).None? ==> r == insert(p.(restaurantId := restaurantId))
    ensures cache.data == AfterWrite(old(cache.data), Key(restaurantId), r.Ok?)
  {
    var e := CreateError(p);
    if e.Some? {
      return Err(e.value);
    }
    r := insert(p.(restaurantId := restaurantId));
    if r.Err? {
      return;
    }
    Invalidate(cache, Key(restaurantId));
  }

  /** Update: no validation; the key goes only if the store update worked. */
  method Update(cache: Client, restaurantId: int, id: int, p: Product, update: (int, int, Product) -> Result<Product>)
    returns (r: Result<Product>)
    modifies cache
    ensures r == update(restaurantId, id, p)
    ensures cache.data == AfterWrite(old(cache.data), Key(restaurantId), r.Ok?)
  {
    r := update(restaurantId, id, p);
    if r.Err? {
      return;
    }
    Invalidate(cache, Key(restaurantId));
  }

  /** Delete: the key goes only if the store delete worked. */
  method Delete(cache: Client, restaurantId: int, id: int, delete: (int, int) -> Outcome) returns (r: Outcome)
    modifies cache
    ensures r == delete(restaurantId, id)
    ensures cache.data == AfterWrite(old(cache.data), Key(restaurantId), r.Pass?)
  {
    r := delete(restaurantId, id);
    if r.Fail? {
      return;
    }
    Invalidate(cache, Key(restaurantId));
  }
}
