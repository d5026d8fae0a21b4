/**
 * Role-based authorization of a request: the path is classified into a resource (and, for
 * restaurant-scoped paths, the restaurant it names) by the first matching pattern, and the
 * caller's role is looked up in a constant role -> resource -> methods table.
 *
 * The patterns are regular expressions in the program; here each is a hand-written matcher
 * over the path text with the same language.
 */
module Auth {
  import opened Wrappers
  import opened Strings

  /** The claims carried by a validated token. */
  datatype Claims = Claims(staffId: int, restaurantId: int, role: string, username: string)

  // ---------------------------------------------------------------------------
  // The permission table.
  // ---------------------------------------------------------------------------

  const AllMethods: set<string> := {"GET", "POST", "PUT", "DELETE"}

  /**
   * Role -> resource -> methods marked true. A method outside the set reads as false in
   * the program's map of booleans, so the set is that map.
   */
  const RolePermissions: map<string, map<string, set<string>>> := map[
    "admin" := map[
      "restaurants" := {"GET", "PUT"},
      "categories" := AllMethods,
      "products" := AllMethods,
      "orders" := AllMethods,
      "staff" := AllMethods,
      "settings" := AllMethods,
      "ratings" := {"GET"}],
    "chef" := map[
      "orders" := {"GET", "PUT"}],
    "superuser" := map[
      "restaurants-global" := {"GET", "POST", "PUT"},
      "restaurants" := AllMethods,
      "categories" := AllMethods,
      "products" := AllMethods,
      "orders" := AllMethods,
      "staff" := AllMethods,
      "settings" := AllMethods,
      "ratings" := {"GET"}]]

  // ---------------------------------------------------------------------------
  // Path patterns.
  // ---------------------------------------------------------------------------

  /** A non-empty run of ASCII digits: the `\d+` of the patterns. */
  predicate IsNumber(s: string) {
    |s| > 0 && AllDigits(s)
  }

  /** What a restaurant-scoped pattern requires after "/restaurants/<digits>". */
  datatype Tail =
    | OptionalId(name: string)   // "/name" optionally followed by "/<digits>"
    | OptionalKey(name: string)  // "/name" optionally followed by "/<one non-empty segment>"
    | Exactly(name: string)      // "/name" and nothing more
    | OrderRating                // "/orders/<digits>/rating"
    | Nothing                    // the end of the path

  /** The pattern shapes: scoped under a restaurant, one exact path, or a path prefix. */
  datatype Shape = Scoped(tail: Tail) | Exact(path: string) | Prefix(prefix: string)

  /** A pattern and the resource it names; only scoped patterns capture a restaurant id. */
  datatype ResourcePattern = ResourcePattern(shape: Shape, resource: string)

  const CategoriesPattern := ResourcePattern(Scoped(OptionalId("categories")), "categories")
  const ProductsPattern := ResourcePattern(Scoped(OptionalId("products")), "products")
  const OrderRatingPattern := ResourcePattern(Scoped(OrderRating), "ratings")
  const OrdersPattern := ResourcePattern(Scoped(OptionalId("orders")), "orders")
  const RatingsPattern := ResourcePattern(Scoped(Exactly("ratings")), "ratings")
  const StaffPattern := ResourcePattern(Scoped(OptionalId("staff")), "staff")
  const SettingsPattern := ResourcePattern(Scoped(OptionalKey("settings")), "settings")
  const RestaurantPattern := ResourcePattern(Scoped(Nothing), "restaurants")
  const RestaurantsPattern := ResourcePattern(Exact("/restaurants"), "restaurants-global")
  const AuthPattern := ResourcePattern(Prefix("/auth/"), "auth")
  const SuperuserAuthPattern := ResourcePattern(Prefix("/superuser/"), "superuser-auth")

  /** The patterns, in the order they are tried. */
  const ResourcePatterns: seq<ResourcePattern> := [
    CategoriesPattern, ProductsPattern, OrderRatingPattern, OrdersPattern, RatingsPattern,
    StaffPattern, SettingsPattern, RestaurantPattern, RestaurantsPattern, AuthPattern,
    SuperuserAuthPattern]

  const ScopePrefix: string := "/restaurants/"

  /** Does `rest`, the text after the restaurant id, have the shape `tail` asks for? */
  predicate TailMatches(tail: Tail, rest: string) {
    match tail
    case OptionalId(name) =>
      rest == "/" + name
      || (HasPrefix(rest, "/" + name + "/") && IsNumber(rest[|name| + 2..]))
    case OptionalKey(name) =>
      rest == "/" + name
      || (HasPrefix(rest, "/" + name + "/") && |rest| > |name| + 2 && '/' !in rest[|name| + 2..])
    case Exactly(name) => rest == "/" + name
    case OrderRating =>
      HasPrefix(rest, "/orders/")
      && var n := DigitRun(rest[8..]);
         n > 0 && rest[8 + n..] == "/rating"
    case Nothing => rest == ""
  }

  /**
   * The text a pattern captures when it matches: the restaurant id digits for a scoped
   * pattern, "" for the others. The id is the whole digit run after "/restaurants/": a
   * shorter run would be followed by a digit, where every tail needs a '/' or the end.
   */
  function MatchShape(shape: Shape, path: string): (captured: Option<string>)
    ensures captured.Some? && shape.Scoped? ==> IsNumber(captured.value)
  {
    match shape
    case Scoped(tail) =>
      if !HasPrefix(path, ScopePrefix) then None
      else
        var t := path[|ScopePrefix|..];
        var n := DigitRun(t);
        if n > 0 && TailMatches(tail, t[n..]) then Some(t[..n]) else None
    case Exact(p) => if path == p then Some("") else None
    case Prefix(p) => if HasPrefix(path, p) then Some("") else None
  }

  /** The classification of a path: its resource and the restaurant it names (0 for none). */
  datatype ResourceInfo = ResourceInfo(name: string, restaurantId: int)

  /** The info a matching pattern yields: Atoi of the captured id for a scoped pattern. */
  function InfoOf(rp: ResourcePattern, captured: string): ResourceInfo {
    ResourceInfo(rp.resource, if rp.shape.Scoped? then AtoiIgnoringError(captured) else 0)
  }

  /** Does pattern `i` match the path? */
  predicate MatchesAt(patterns: seq<ResourcePattern>, i: nat, path: string)
    requires i < |patterns|
  {
    MatchShape(patterns[i].shape, path).Some?
  }

  /** The first pattern from index `i` on that matches, as ResourceInfo. */
  function FirstMatch(patterns: seq<ResourcePattern>, path: string, i: nat): Option<ResourceInfo>
    requires i <= |patterns|
    decreases |patterns| - i
  {
    if i == |patterns| then None
    else
      var m := MatchShape(patterns[i].shape, path);
      if m.Some? then Some(InfoOf(patterns[i], m.value))
      else FirstMatch(patterns, path, i + 1)
  }

  /** extractResourceInfo: the patterns tried in declared order. */
  function ExtractResourceInfo(path: string): Option<ResourceInfo> {
    FirstMatch(ResourcePatterns, path, 0)
  }

  /** The first-match rule, first half: nothing exactly when no pattern from `i` on matches. */
  lemma {:induction false} FirstMatchNone(patterns: seq<ResourcePattern>, path: string, i: nat)
    requires i <= |patterns|
    ensures FirstMatch(patterns, path, i).None? <==> forall j :: i <= j < |patterns| ==> !MatchesAt(patterns, j, path)
    decreases |patterns| - i
  {
    if i < |patterns| && !MatchesAt(patterns, i, path) {
      FirstMatchNone(patterns, path, i + 1);
    }
  }

  /** The first-match rule, second half: a result is the info of the first matching pattern. */
  lemma {:induction false} FirstMatchSome(patterns: seq<ResourcePattern>, path: string, i: nat)
    requires i <= |patterns|
    ensures FirstMatch(patterns, path, i).Some? ==>
              exists j :: i <= j < |patterns| && MatchesAt(patterns, j, path)
                          && (forall l :: i <= l < j ==> !MatchesAt(patterns, l, path))
                          && FirstMatch(patterns, path, i).value == InfoOf(patterns[j], MatchShape(patterns[j].shape, path).value)
    decreases |patterns| - i
  {
    if i < |patterns| {
      if MatchesAt(patterns, i, path) {
        assert FirstMatch(patterns, path, i) == Some(InfoOf(patterns[i], MatchShape(patterns[i].shape, path).value));
      } else {
        FirstMatchSome(patterns, path, i + 1);
      }
    }
  }

  /** FirstMatch from `i` is the info of pattern `k` when `k` matches and none before it does. */
  lemma {:induction false} FirstMatchIs(patterns: seq<ResourcePattern>, path: string, i: nat, k: nat)
    requires i <= k < |patterns| && MatchesAt(patterns, k, path)
    requires forall l :: i <= l < k ==> !MatchesAt(patterns, l, path)
    ensures FirstMatch(patterns, path, i) == Some(InfoOf(patterns[k], MatchShape(patterns[k].shape, path).value))
    decreases k - i
  {
    if i < k {
      assert !MatchesAt(patterns, i, path);
      FirstMatchIs(patterns, path, i + 1, k);
    }
  }

  /** extractResourceInfo follows the first-match rule over the declared patterns. */
  lemma ExtractResourceInfoSpec(path: string)
    ensures ExtractResourceInfo(path).None? <==> forall j :: 0 <= j < |ResourcePatterns| ==> !MatchesAt(ResourcePatterns, j, path)
    ensures ExtractResourceInfo(path).Some? ==>
              exists j :: 0 <= j < |ResourcePatterns| && MatchesAt(ResourcePatterns, j, path)
                          && (forall l :: 0 <= l < j ==> !MatchesAt(ResourcePatterns, l, path))
                          && ExtractResourceInfo(path).value == InfoOf(ResourcePatterns[j], MatchShape(ResourcePatterns[j].shape, path).value)
  {
    FirstMatchNone(ResourcePatterns, path, 0);
    FirstMatchSome(ResourcePatterns, path, 0);
  }

  // ---------------------------------------------------------------------------
  // The decision.
  // ---------------------------------------------------------------------------

  datatype Decision = Decision(allowed: bool, reason: string)

  const ErrUnknownResource: string := "unknown resource"
  const ErrUnknownRole: string := "unknown role"
  const ErrNoResource: string := "access denied: no permission for this resource"
  const ErrMethod: string := "access denied: method not allowed"
  const ErrMismatch: string := "access denied: restaurant mismatch"

  /** The resources every caller may reach, whatever its role. */
  predicate IsAuthResource(name: string) {
    name == "auth" || name == "superuser-auth"
  }

  /** The table grants the role this method on this resource. */
  predicate Granted(role: string, resource: string, httpMethod: string) {
    role in RolePermissions && resource in RolePermissions[role]
    && httpMethod in RolePermissions[role][resource]
  }

  /** The path names no restaurant other than the caller's, or the caller is the superuser. */
  predicate OwnsScope(claims: Claims, info: ResourceInfo) {
    claims.role == "superuser" || info.restaurantId <= 0 || info.restaurantId == claims.restaurantId
  }

  /**
   * checkAuthorization: unknown resource, then the auth endpoints let through, then unknown
   * role, missing resource, missing method and restaurant mismatch, in this order.
   */
  function CheckAuthorization(claims: Claims, httpMethod: string, path: string): (d: Decision)
    ensures d.allowed <==> d.reason == ""
    ensures d.allowed <==>
              && ExtractResourceInfo(path).Some?
              && var info := ExtractResourceInfo(path).value;
                 IsAuthResource(info.name) || (Granted(claims.role, info.name, httpMethod) && OwnsScope(claims, info))
    ensures ExtractResourceInfo(path).None? ==> d.reason == ErrUnknownResource
    ensures ExtractResourceInfo(path).Some? && !IsAuthResource(ExtractResourceInfo(path).value.name) ==>
              (claims.role !in RolePermissions ==> d.reason == ErrUnknownRole)
              && (claims.role in RolePermissions && ExtractResourceInfo(path).value.name !in RolePermissions[claims.role] ==>
                    d.reason == ErrNoResource)
              && (claims.role in RolePermissions && ExtractResourceInfo(path).value.name in RolePermissions[claims.role]
                  && httpMethod !in RolePermissions[claims.role][ExtractResourceInfo(path).value.name] ==>
                    d.reason == ErrMethod)
              && ((Granted(claims.role, ExtractResourceInfo(path).value.name, httpMethod)
                   && !OwnsScope(claims, ExtractResourceInfo(path).value)) ==> d.reason == ErrMismatch)
  {
    var found := ExtractResourceInfo(path);
    if found.None? then Decision(false, ErrUnknownResource)
    else
      var info := found.value;
      if IsAuthResource(info.name) then Decision(true, "")
      else if claims.role !in RolePermissions then Decision(false, ErrUnknownRole)
      else if info.name !in RolePermissions[claims.role] then Decision(false, ErrNoResource)
      else if httpMethod !in RolePermissions[claims.role][info.name] then Decision(false, ErrMethod)
      else if claims.role != "superuser" && info.restaurantId > 0 && info.restaurantId != claims.restaurantId
      then Decision(false, ErrMismatch)
      else Decision(true, "")
  }

  // ---------------------------------------------------------------------------
  // Properties of the table and the classification.
  // ---------------------------------------------------------------------------

  /** A chef may only read and update orders. */
  lemma ChefOnlyReadsAndUpdatesOrders(resource: string, httpMethod: string)
    ensures Granted("chef", resource, httpMethod) <==> resource == "orders" && httpMethod in {"GET", "PUT"}
  {
  }

  /** An admin cannot create or delete restaurants, nor reach the global restaurant list. */
  lemma AdminRestaurantLimits(httpMethod: string)
    ensures Granted("admin", "restaurants", httpMethod) <==> httpMethod in {"GET", "PUT"}
    ensures !Granted("admin", "restaurants-global", httpMethod)
  {
  }

  /** Ratings are read-only for every role. */
  lemma RatingsReadOnly(role: string, httpMethod: string)
    ensures Granted(role, "ratings", httpMethod) ==> httpMethod == "GET"
  {
  }

  /** Whatever an admin may do, the superuser may do too. */
  lemma SuperuserCoversAdmin(resource: string, httpMethod: string)
    ensures Granted("admin", resource, httpMethod) ==> Granted("superuser", resource, httpMethod)
  {
  }

  /** Every granted method is one of the four HTTP methods the table uses. */
  lemma GrantedMethodsKnown(role: string, resource: string, httpMethod: string)
    ensures Granted(role, resource, httpMethod) ==> httpMethod in AllMethods
  {
  }

  /**
   * Ownership: a caller other than the superuser who is let through on a path naming a
   * positive restaurant id (other than an auth endpoint) is that restaurant's.
   */
  lemma AllowedOnlyInOwnRestaurant(claims: Claims, httpMethod: string, path: string)
    requires claims.role != "superuser"
    requires CheckAuthorization(claims, httpMethod, path).allowed
    requires ExtractResourceInfo(path).Some? && !IsAuthResource(ExtractResourceInfo(path).value.name)
    ensures ExtractResourceInfo(path).value.restaurantId > 0 ==>
              ExtractResourceInfo(path).value.restaurantId == claims.restaurantId
  {
  }

  /** A scoped pattern on "/restaurants/<d>" + rest captures d exactly when its tail matches rest. */
  lemma ScopedMatch(tail: Tail, d: string, rest: string)
    requires IsNumber(d)
    requires |rest| > 0 ==> !IsDigit(rest[0])
    ensures MatchShape(Scoped(tail), ScopePrefix + d + rest) == if TailMatches(tail, rest) then Some(d) else None
  {
    var path := ScopePrefix + d + rest;
    assert HasPrefix(path, ScopePrefix);
    var t := path[|ScopePrefix|..];
    assert t == d + rest;
    DigitRunOf(d, rest);
    assert t[..|d|] == d && t[|d|..] == rest;
  }

  /** "/orders/<m>/rating" is the tail of the rating pattern. */
  lemma OrderRatingTail(m: string)
    requires IsNumber(m)
    ensures TailMatches(OrderRating, "/orders/" + m + "/rating")
  {
    var rest := "/orders/" + m + "/rating";
    assert HasPrefix(rest, "/orders/");
    assert rest[8..] == m + "/rating";
    DigitRunOf(m, "/rating");
    assert (m + "/rating")[|m|..] == "/rating";
  }

  /** A tail whose first name letter differs from `name`'s is not an OptionalId(name) tail. */
  lemma OtherCollectionTail(name: string, rest: string)
    requires |name| > 0 && |rest| > 1 && rest[1] != name[0]
    ensures !TailMatches(OptionalId(name), rest)
  {
    assert ("/" + name)[1] == name[0];
    assert ("/" + name + "/")[1] == name[0];
  }

  /** The rating path is neither a category nor a product path, and the rating pattern captures d. */
  lemma RatingPathMatches(d: string, m: string)
    requires IsNumber(d) && IsNumber(m)
    ensures var path := ScopePrefix + d + ("/orders/" + m + "/rating");
            && MatchShape(CategoriesPattern.shape, path).None?
            && MatchShape(ProductsPattern.shape, path).None?
            && MatchShape(OrderRatingPattern.shape, path) == Some(d)
  {
    var rest := "/orders/" + m + "/rating";
    OrderRatingTail(m);
    assert rest[1] == 'o';
    OtherCollectionTail("categories", rest);
    OtherCollectionTail("products", rest);
    ScopedMatch(OptionalId("categories"), d, rest);
    ScopedMatch(OptionalId("products"), d, rest);
    ScopedMatch(OrderRating, d, rest);
  }

  /** A path that is neither a category nor a product path misses the first two patterns. */
  lemma MissesFirstTwo(path: string)
    requires MatchShape(CategoriesPattern.shape, path).None? && MatchShape(ProductsPattern.shape, path).None?
    ensures forall l :: 0 <= l < 2 ==> !MatchesAt(ResourcePatterns, l, path)
  {
    assert ResourcePatterns[0] == CategoriesPattern && ResourcePatterns[1] == ProductsPattern;
  }

  /** The third pattern is the rating pattern. */
  lemma ThirdIsRating(path: string, d: string)
    requires MatchShape(OrderRatingPattern.shape, path) == Some(d)
    ensures 2 < |ResourcePatterns| && MatchesAt(ResourcePatterns, 2, path)
    ensures InfoOf(ResourcePatterns[2], MatchShape(ResourcePatterns[2].shape, path).value) == InfoOf(OrderRatingPattern, d)
  {
    assert ResourcePatterns[2] == OrderRatingPattern;
  }

  /** A path the rating pattern is the first to match is classified by it. */
  lemma ClassifiedAsRating(path: string, d: string)
    requires MatchShape(CategoriesPattern.shape, path).None? && MatchShape(ProductsPattern.shape, path).None?
    requires MatchShape(OrderRatingPattern.shape, path) == Some(d)
    ensures ExtractResourceInfo(path) == Some(InfoOf(OrderRatingPattern, d))
  {
    MissesFirstTwo(path);
    ThirdIsRating(path, d);
    FirstMatchIs(ResourcePatterns, path, 0, 2);
  }

  /**
   * First match wins: "/restaurants/<d>/orders/<m>/rating" is a "ratings" path of
   * restaurant d, though the later "orders" pattern alone would not reject it.
   */
  lemma RatingPathIsRatings(d: string, m: string)
    requires IsNumber(d) && IsNumber(m)
    ensures ExtractResourceInfo(ScopePrefix + d + "/orders/" + m + "/rating")
            == Some(ResourceInfo("ratings", AtoiDigits(d)))
  {
    var path := ScopePrefix + d + ("/orders/" + m + "/rating");
    assert ScopePrefix + d + "/orders/" + m + "/rating" == path;
    RatingPathMatches(d, m);
    ClassifiedAsRating(path, d);
  }

  /** No pattern before the auth pattern matches a path under "/auth/". */
  lemma AuthPathMissesPattern(j: nat, rest: string)
    requires j < 9
    ensures !MatchesAt(ResourcePatterns, j, "/auth/" + rest)
  {
    var path := "/auth/" + rest;
    assert path[1] == 'a';
    assert !HasPrefix(path, ScopePrefix);
    assert path != "/restaurants";
  }

  /** A path under "/auth/" is let through for any claims and any method. */
  lemma AuthPathsAlwaysAllowed(claims: Claims, httpMethod: string, rest: string)
    ensures CheckAuthorization(claims, httpMethod, "/auth/" + rest).allowed
  {
    var path := "/auth/" + rest;
    forall l | 0 <= l < 9
      ensures !MatchesAt(ResourcePatterns, l, path)
    {
      AuthPathMissesPattern(l, rest);
    }
    assert HasPrefix(path, "/auth/");
    assert ResourcePatterns[9] == AuthPattern;
    assert MatchesAt(ResourcePatterns, 9, path);
    FirstMatchIs(ResourcePatterns, path, 0, 9);
  }

  /** Pattern `j` does not match the root path. */
  lemma RootMissesPattern(j: nat)
    requires j < |ResourcePatterns|
    ensures !MatchesAt(ResourcePatterns, j, "/")
  {
    assert !HasPrefix("/", ScopePrefix);
  }

  /** No pattern matches the root path. */
  lemma RootMatchesNothing()
    ensures ExtractResourceInfo("/").None?
  {
    ExtractResourceInfoSpec("/");
    forall j | 0 <= j < |ResourcePatterns|
      ensures !MatchesAt(ResourcePatterns, j, "/")
    {
      RootMissesPattern(j);
    }
  }

  /** A path no pattern matches is denied as an unknown resource. */
  lemma RootIsUnknown(claims: Claims, httpMethod: string)
    ensures CheckAuthorization(claims, httpMethod, "/") == Decision(false, ErrUnknownResource)
  {
    RootMatchesNothing();
  }
}
