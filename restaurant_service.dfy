/**
 * Restaurant management: slug generation, the defaults Create fills in, and the existence
 * guard of Update and Delete. The restaurant store's queries are not modelled; their
 * answers are function parameters.
 */
module RestaurantService {
  import opened Wrappers
  import opened Strings
  import opened Model

  const DefaultCurrency: string := "INR"

  const ErrNameRequired: string := "restaurant name is required"

  function NotFound(msg: string): string {
    "restaurant not found: " + msg
  }

  /** generateSlug: trim, lower-case, and turn every space into a hyphen. */
  function GenerateSlug(name: string): (slug: string)
    ensures |slug| == |TrimSpace(name)|
    ensures forall i :: 0 <= i < |slug| ==> slug[i] != ' '
    ensures forall i :: 0 <= i < |slug| ==>
              slug[i] == (if TrimSpace(name)[i] == ' ' then '-' else LowerChar(TrimSpace(name)[i]))
  {
    ReplaceChar(ToLower(TrimSpace(name)), ' ', '-')
  }

  /** A trimmed string neither starts nor ends with white space. */
  lemma TrimmedEnds(s: string)
    ensures var t := TrimSpace(s); t == [] || (!IsSpace(t[0]) && !IsSpace(t[|t| - 1]))
  {
  }

  /** A slug is already trimmed, lower-case and free of spaces, so generating it again changes nothing. */
  lemma GenerateSlugIdempotent(name: string)
    ensures GenerateSlug(GenerateSlug(name)) == GenerateSlug(name)
  {
    var slug := GenerateSlug(name);
    var t := TrimSpace(name);
    TrimmedEnds(name);
    if |slug| > 0 {
      assert !IsSpace(slug[0]) && !IsSpace(slug[|slug| - 1]);
    }
    TrimSpaceNoOp(slug);
    assert ReplaceChar(ToLower(slug), ' ', '-') == slug;
  }

  /** A name that is not blank yields a slug that is not blank either. */
  lemma SlugOfNamedRestaurantNotBlank(name: string)
    requires !IsBlank(name)
    ensures !IsBlank(GenerateSlug(name))
  {
    var slug := GenerateSlug(name);
    TrimmedEnds(name);
    assert !IsSpace(slug[0]);
    BlankIffAllSpace(slug);
  }

  /** The record Create hands to the store: slug generated when blank, currency defaulted, active. */
  function Prepared(r: Restaurant): Restaurant {
    r.(slug := if IsBlank(r.slug) then GenerateSlug(r.name) else r.slug,
       currency := if r.currency == "" then DefaultCurrency else r.currency,
       active := true)
  }

  /** Create: a blank name is refused before the store is reached. */
  function Create(r: Restaurant, insert: Restaurant -> Result<Restaurant>): (res: Result<Restaurant>)
    ensures IsBlank(r.name) ==> res == Err(ErrNameRequired)
    ensures !IsBlank(r.name) ==> res == insert(Prepared(r))
  {
    if IsBlank(r.name) then Err(ErrNameRequired)
    else insert(Prepared(r))
  }

  /**
   * A record the store receives from Create has a name, a slug that is not blank, a
   * currency, and is active; a slug or currency the client gave is kept.
   */
  lemma PreparedIsWellFormed(r: Restaurant)
    requires !IsBlank(r.name)
    ensures var p := Prepared(r);
            && !IsBlank(p.slug) && p.currency != "" && p.active
            && p.name == r.name && p.id == r.id
            && (!IsBlank(r.slug) ==> p.slug == r.slug)
            && (IsBlank(r.slug) ==> p.slug == GenerateSlug(r.name))
            && (r.currency != "" ==> p.currency == r.currency)
  {
    if IsBlank(r.slug) {
      SlugOfNamedRestaurantNotBlank(r.name);
    }
  }

  /** Update: only an existing restaurant is written. */
  function Update(id: int, r: Restaurant, getById: int -> Result<Restaurant>, update: (int, Restaurant) -> Result<Restaurant>)
    : (res: Result<Restaurant>)
    ensures getById(id).Err? ==> res == Err(NotFound(getById(id).msg))
    ensures getById(id).Ok? ==> res == update(id, r)
  {
    var found := getById(id);
    if found.Err? then Err(NotFound(found.msg))
    else update(id, r)
  }

  /** Delete: only an existing restaurant is deleted. */
  function Delete(id: int, getById: int -> Result<Restaurant>, delete: int -> Outcome): (res: Outcome)
    ensures getById(id).Err? ==> res == Fail(NotFound(getById(id).msg))
    ensures getById(id).Ok? ==> res == delete(id)
  {
    var found := getById(id);
    if found.Err? then Fail(NotFound(found.msg))
    else delete(id)
  }
}
