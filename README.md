# qr-dinein-backend, modelled in Dafny

qr-dinein-backend is the server behind a QR-code ordering system for restaurants. Customers
scan a table's code, verify their phone number with a one-time code, and place orders. Staff
(admins and chefs) log in with a pin and manage products, categories, settings, staff and
orders. A superuser manages the restaurants.

This project models the core of that server:

- the order service: status transitions, totals, chef assignment, the ready-time estimate,
  and the partial update built from SET clauses;
- the order and product store queries it relies on, over an in-memory table model;
- the five chef-assignment policies: manual, round robin, least loaded, random and least
  recently assigned, plus the resolver that picks one from a restaurant setting;
- role-based authorization over URL patterns, and the middleware's public-path registry and
  header helpers;
- the customer OTP and session flow over a Redis key space;
- staff and superuser login;
- the catalog services with their cache-aside reads and invalidating writes;
- the staff, restaurant and rating services' guards and defaults.

Module layout:

- `Wrappers`, `Strings` and `Seqs` are library helpers. `Strings` covers the parts of Go's
  `strconv` and `strings` packages the server uses.
- `Model` holds the records: orders, products, staff, settings, sessions and cache entries.
- `Redis` is the key space with a `Client` class whose methods update it in place.
- `Store` holds the SQL queries as functions over the tables. A query named in
  `Db.failing` returns a driver error.
- The remaining modules follow the Go packages: `Strategy`, `Auth`, `AuthMiddleware`,
  `CustomerService`, `OrderService`, `AuthService`, `CacheAside`, `ProductService`,
  `CategoryService`, `SettingsService`, `StaffService`, `RestaurantService` and
  `RatingService`.

Outside inputs are parameters:

- the clock (`now`);
- the random sources (`crypto/rand` digit draws and `rand.Intn`);
- the generated session token;
- the token signer;
- the stores the core does not define.

## Model

| member | source | states |
|---|---|---|
| OrderService.IsValidStatusTransition | service/order.go:259-279 | exactly four moves are allowed: pending to preparing or cancelled, and preparing to completed or cancelled |
| OrderService.TransitionsMoveForward | service/order.go:259-279 | every allowed move goes strictly forward in the order's life, and nothing leaves completed or cancelled |
| OrderService.ItemsTotalAppend | service/order.go:106-113 | the total of two item lists together is the sum of their totals |
| OrderService.ItemsTotalNonNegative | service/order.go:106-113 | items with non-negative prices and quantities never total below zero |
| OrderService.ComputeTotal | service/order.go:106-113 | the running loop computes the sum of price times quantity over the items |
| OrderService.ProductIds | service/order.go:211-219 | the product id of each item, in item order |
| OrderService.PrepTimeOf | service/order.go:227-237 | an item's prep time is always positive: a positive stored time is used as it is, and a missing or non-positive one falls back to the 5-minute default |
| OrderService.MaxPrepTime | service/order.go:227-237 | the largest item prep time: no item exceeds it and some item reaches it; 0 exactly when there are no items |
| OrderService.QueueDepth | service/order.go:243-252 | with no assigned chef the queue is empty; otherwise it is the chef's open-order count, or 0 when that query fails |
| OrderService.EstimatedMinutes | service/order.go:239-256 | the estimate is positive, is (1 + queue) times the longest item time, and uses the default when there are no items |
| OrderService.EstimatedMinutesIs | service/order.go:254-256 | the estimate is the longest time once plus once per queued order |
| OrderService.EstimateExample | service/order.go:227-256 | prep times 10, 20 and 5 with two queued orders give 60 minutes |
| OrderService.CollectProductIds | service/order.go:211-219 | the seen-map loop yields each product id once, in first-occurrence order |
| OrderService.LongestPrepTime | service/order.go:227-237 | the running maximum loop finds the longest prep time over the items |
| OrderService.CalculateEstimatedReadyAt | service/order.go:210-257 | only the ready time changes: now plus the estimate from the looked-up prep times and the chef's queue, and a failed lookup leaves every item at the default |
| OrderService.CheckCustomer | service/order.go:53-101 | a required or supplied token must name a session of this restaurant, whose phone replaces the mobile; otherwise a mobile is required |
| OrderService.SessionAndCounterKeysDiffer | service/order.go:96-121 | deleting the spent session never touches the round-robin counter |
| OrderService.Create | service/order.go:48-132 | with no items or a failed customer check nothing is written; otherwise the stored order has a fresh id, the computed total, the default status, the assigner's chef unless assignment failed, and the session is spent |
| OrderService.Part | service/order.go:152-195 | a present field contributes its clauses (two for the items, which also set the total) with matching values |
| OrderService.AddPart | service/order.go:152-195 | clauses of a present field are appended after those of the earlier fields, values alongside |
| OrderService.PartsUpTo | service/order.go:152-195 | the clauses of the first fields keep one value per clause |
| OrderService.HasChangesIffPresent | service/order.go:152-199 | a request produces SET clauses exactly when one of its seven fields is present |
| OrderService.SetClausesOf | service/order.go:152-195 | one clause per present field, in field order, each naming its column |
| OrderService.SetArgsOf | service/order.go:152-195 | one bound value per clause, in the same order |
| OrderService.ApplyPart | service/order.go:152-195 | a field's clauses, run through the SET semantics, write that field of the request over the stored order |
| OrderService.ApplyAddPart | service/order.go:152-195 | adding one more field's clauses applies that field after the earlier ones |
| OrderService.ApplyPartsUpTo | service/order.go:152-195 | the clauses of the first fields merge exactly those fields one by one |
| OrderService.MergeUpToPrefix | service/order.go:152-195 | merging the first fields one by one equals merging the request cut to those fields |
| OrderService.MergeUpToAll | service/order.go:152-195 | merging all seven fields one by one equals merging the whole request |
| OrderService.ApplySetClauses | service/order.go:152-195 | the clause list Update builds turns the stored order into the merged order with the new timestamp |
| OrderService.BuildSetClauses | service/order.go:152-195 | the field-by-field builder produces exactly SetClausesOf and SetArgsOf |
| OrderService.UpdateGuard | service/order.go:140-150 | a chef can be set only on a pending order, checked first; a changed status must be an allowed transition |
| OrderService.UpdateStatementEffect | service/order.go:201-202 | for an existing order the UPDATE rewrites that row and no other, and reading it back gives the merged order |
| OrderService.Update | service/order.go:134-202 | a missing order or a failed guard writes nothing; an empty request returns the stored order unwritten; otherwise only the matching row takes the present fields and the new timestamp |
| Store.IntArgs | store/order.go:165-173 | each chef id becomes one integer argument, in order |
| Store.IntsOf | store/order.go:165-173 | reading the integer arguments back keeps their positions |
| Store.IntsOfIntArgs | store/order.go:165-173 | the ids bound as arguments read back as the same ids |
| Store.PlaceholdersShape | store/product.go:93-101 | the IN list alternates '?' and ',' and starts and ends with '?' |
| Store.PlaceholdersCount | store/product.go:93-101 | the IN list holds exactly one '?' per id |
| Store.BuildInList | store/order.go:165-173 | the loop builds one placeholder per id and binds the restaurant first, then the ids |
| Store.InListBalanced | store/order.go:165-173 | both IN-list queries have exactly one placeholder per bound argument |
| Store.ActiveChefsOf | store/staff.go:117-120 | exactly the active chefs of the restaurant, in table order |
| Store.ActiveChefsAscending | store/staff.go:117-120 | filtering a table in ascending id order keeps the ids ascending |
| Store.InsertByIdPermutes | store/staff.go:119 | inserting adds exactly the one row |
| Store.InsertByIdSorted | store/staff.go:119 | inserting into an id-sorted list keeps it sorted |
| Store.SortById | store/staff.go:119 | the result is sorted by id and is a permutation of the input |
| Store.SortByIdAscending | store/staff.go:119 | rows already in ascending id order are left as they are |
| Store.SortByIdSwaps | store/staff.go:119 | two rows with the higher id first come back lower id first |
| Store.GetActiveChefs | store/staff.go:117-137 | a query error exactly when the query fails; otherwise a list sorted by id holding only active chefs of the restaurant |
| Store.GetActiveChefsExactly | store/staff.go:117-137 | the list is a permutation of the restaurant's active chef rows, so none is missed |
| Store.GetActiveChefsTableOrder | store/staff.go:117-137 | on a table already in ascending id order the chefs come back in table order |
| Store.LoadChefIdsIff | store/order.go:139-158 | a chef is grouped exactly when it has a pending or preparing order in the restaurant |
| Store.ChefLoadsOf | store/order.go:139-158 | one row per grouped chef, each counting that chef's open orders in the restaurant |
| Store.ChefLoadsDistinct | store/order.go:139-158 | no chef appears in two rows |
| Store.ChefLoadCountPositive | store/order.go:139-158 | every row counts at least one order |
| Store.ChefLoadsCover | store/order.go:139-158 | every chef with an open order in the restaurant has a row |
| Store.GetChefLoads | store/order.go:139-158 | a query error, or the grouped rows |
| Store.GetChefActiveOrderCount | store/order.go:193-203 | a query error, or the number of the chef's pending or preparing orders across all restaurants |
| Store.ActiveCountCoversLoad | store/order.go:139-203 | the all-restaurant count is at least the chef's load in any one restaurant |
| Store.ActiveCountIgnoresRestaurant | store/order.go:139-203 | an open order elsewhere raises the count by one but leaves this restaurant's load as it is |
| Store.LastAssigned | store/order.go:175-182 | the latest creation time among the chef's orders in the restaurant, or none |
| Store.StaffIdsIn | store/order.go:175-182 | only staff ids from the IN list are matched |
| Store.LeastRecent | store/order.go:175-182 | the chosen candidate sorts no later than any other, by last assignment and then by id |
| Store.NeverAssignedFirst | store/order.go:175-182 | if some candidate was never assigned, the chosen one never was either |
| Store.SelectLeastRecent | store/order.go:175-191 | a successful query returns one of the listed ids |
| Store.GetLeastRecentlyAssignedChef | store/order.go:160-191 | an empty list returns no chef without querying; otherwise the selecting query's answer |
| Store.PrepTimeRows | store/product.go:93-110 | only products of the restaurant whose id was asked for are returned |
| Store.RowsToMapKeys | store/product.go:111-118 | the map's keys are exactly the ids of the rows |
| Store.RowsToMapLastWins | store/product.go:111-118 | the value under an id is the prep time of the last row with that id |
| Store.GetPrepTimes | store/product.go:88-121 | no ids gives an empty map without a query; otherwise a query error or the rows as a map |
| Store.FindSetting | store/settings.go:40-51 | a found setting belongs to the restaurant and has the key; otherwise no such setting exists |
| Store.GetSettingByKey | store/settings.go:40-51 | the restaurant's setting under the key, or an error |
| Store.FindOrder | store/order.go:54-62 | a found order has the id and the restaurant; otherwise there is none |
| Store.GetOrderByID | store/order.go:54-87 | the order with this id in this restaurant, or an error, also for another restaurant's order |
| Store.NextOrderId | store/order.go:89-110 | the next auto-increment id is above every stored id |
| Store.Create | store/order.go:89-110 | a failed insert changes nothing; otherwise the order is appended with a fresh id and both timestamps set to now |
| Store.UpdateRows | store/order.go:112-126 | the update keeps the number of rows |
| Store.ApplyAssignmentsConcat | store/order.go:112-126 | a split SET list is applied as its first part, then its second |
| Store.ApplyKeepsKey | store/order.go:112-126 | no SET clause changes a row's id or restaurant |
| Store.FindOrderSnoc | store/order.go:54-62 | looking up an order in a table with one more row |
| Store.UpdateRowsPointwise | store/order.go:112-126 | the UPDATE rewrites exactly the rows the WHERE clause selects |
| Store.UpdateRowsFind | store/order.go:112-126 | reading the order back after the UPDATE gives the rewritten row |
| Store.UpdateRowsEffect | store/order.go:112-126 | the UPDATE succeeds when every selected row accepts the SET list, and rewrites only those rows |
| Store.ExecUpdate | store/order.go:112-126 | a successful statement changes only the order table and keeps its size |
| Store.JoinClauses | store/order.go:128-137 | the clauses joined with ", " |
| Store.Update | store/order.go:112-126 | the UPDATE text and its bound arguments; a failed statement or re-read is an error, otherwise the re-read row |
| Strategy.FromSetting | strategy/resolver.go:23-41 | a missing setting means manual; an automatic policy is chosen only when the setting names it exactly |
| Strategy.FromSettingName | strategy/resolver.go:23-41 | naming a policy selects it |
| Strategy.FromSettingDefault | strategy/resolver.go:23-41 | a value naming no automatic policy selects manual |
| Strategy.Resolve | strategy/resolver.go:23-41 | the restaurant's chef_assignment_strategy setting decides the policy, manual when it cannot be read |
| Strategy.IdsOf | strategy/least_recently_assigned.go:29-32 | the chefs' ids, in list order |
| Strategy.ManualAssign | strategy/manual.go:7-9 | manual assignment picks no chef and never fails |
| Strategy.PickIsActiveChefRow | strategy/round_robin.go:38-40 | a chosen id is the id of an active chef row of the restaurant |
| Strategy.RoundRobinKeysDistinct | strategy/round_robin.go:28 | distinct restaurants have distinct counters |
| Strategy.GoRem | strategy/round_robin.go:37 | Go's remainder lies strictly between -n and n, and equals the Euclidean one for a non-negative dividend |
| Strategy.GoRemNonNegative | strategy/round_robin.go:37 | Go's remainder is negative exactly when the dividend is negative and not a multiple of the divisor, and otherwise equals the Euclidean one |
| Strategy.RoundRobinIndex | strategy/round_robin.go:37-38 | when Go's remainder is not negative it is an index in range, equal to (counter - 1) mod n |
| Strategy.IncrReplyPositive | strategy/round_robin.go:30 | on a counter that is not negative INCR replies at least 1 |
| Strategy.CounterUsableIsSafe | strategy/round_robin.go:30-38 | a counter that is not negative never makes the index negative, whatever the chef list |
| Strategy.MinusOneCounterOneChef | strategy/round_robin.go:30-38 | a stored -1 with one chef is served: INCR replies 0 and the index is 0 |
| Strategy.MinusTwoCounterThreeChefs | strategy/round_robin.go:30-38 | a stored -2 with three chefs gives a negative index, the panic the model excludes |
| Strategy.RoundRobinPick | strategy/round_robin.go:30-40 | the pick is one of the listed chefs: the one at (counter - 1) mod n, or the first when INCR fails |
| Strategy.RoundRobinAssign | strategy/round_robin.go:18-41 | no chefs gives no pick and an untouched counter; otherwise INCR runs once and its reply picks a listed active chef, the first one when INCR fails |
| Strategy.IncrTimesCounts | strategy/round_robin.go:30 | from a fresh key the j-th INCR replies j |
| Strategy.RoundRobinVisitsInTurn | strategy/round_robin.go:30-38 | from a fresh counter the j-th assignment picks chef j mod n, so every chef gets a turn |
| Strategy.LoadPairs | strategy/least_loaded.go:34-38 | each load row as a (chef, count) pair, in order |
| Strategy.RowsToMapNonNegative | strategy/least_loaded.go:34-38 | loads are never negative when no row count is |
| Strategy.FirstMinIndex | strategy/least_loaded.go:40-50 | the first position of the smallest value: no later value is smaller and every earlier one is larger |
| Strategy.ChefLoadList | strategy/least_loaded.go:40-50 | each chef's load, 0 when it has no row |
| Strategy.LeastLoadedPick | strategy/least_loaded.go:40-50 | the pick is one of the listed chefs |
| Strategy.LeastLoadedPickMinimal | strategy/least_loaded.go:40-50 | no chef has a smaller load than the pick, and every earlier chef has a larger one |
| Strategy.LeastLoadedIdlePicksLowestId | strategy/least_loaded.go:40-50 | with no load rows the pick is the active chef with the lowest id |
| Strategy.LeastLoadedAssign | strategy/least_loaded.go:19-53 | no chefs gives no pick; a failed load query is an error; otherwise the first chef with the smallest load |
| Strategy.FoldLoads | strategy/least_loaded.go:34-38 | the loop builds the chef-to-load map, a later row overriding an earlier one |
| Strategy.ScanLeastLoaded | strategy/least_loaded.go:40-50 | the scan keeps the first chef with a strictly smaller load, which is the least-loaded pick |
| Strategy.RandomAssign | strategy/random.go:19-33 | no chefs gives no pick; otherwise the chef at the drawn index, and never an error |
| Strategy.LeastRecentlyAssignedAssign | strategy/least_recently_assigned.go:19-35 | no chefs gives no pick; otherwise the store's least recently assigned chef among the active ones |
| Strategy.AssignSpec | strategy/chef_assignment.go:5-11 | only round robin touches the key space, manual never picks, and any pick is an active chef of the restaurant |
| Strategy.Assign | strategy/resolver.go:23-41 | dispatching to the resolved policy has exactly the effect AssignSpec states |
| Strings.DigitRun | auth/authorization.go:49-65 | the length of the digit run at the start of a string, stopped by a non-digit; the whole string when it is all digits |
| Strings.DigitRunOf | auth/authorization.go:49-65 | digits followed by a non-digit or nothing have a run of exactly their length |
| Auth.MatchShape | auth/authorization.go:49-65 | a scoped pattern captures a non-empty run of digits |
| Auth.FirstMatchNone | auth/authorization.go:72-84 | the search finds nothing exactly when no pattern matches |
| Auth.FirstMatchSome | auth/authorization.go:72-84 | a result is the info of the first matching pattern |
| Auth.FirstMatchIs | auth/authorization.go:72-84 | when pattern k matches and none before it does, the result is pattern k's info |
| Auth.ExtractResourceInfoSpec | auth/authorization.go:72-84 | extractResourceInfo returns nothing exactly when no pattern matches, and otherwise the info of the first matching pattern in declared order |
| Auth.CheckAuthorization | auth/authorization.go:86-122 | auth paths always pass; others need a known resource, a role granted the method, and for non-superusers no foreign restaurant id; each denial carries its reason |
| Auth.ChefOnlyReadsAndUpdatesOrders | auth/authorization.go:17-46 | a chef is granted exactly GET and PUT on orders |
| Auth.AdminRestaurantLimits | auth/authorization.go:17-46 | an admin may only GET and PUT its restaurant and never reach the global restaurant list |
| Auth.RatingsReadOnly | auth/authorization.go:17-46 | ratings are read-only for every role |
| Auth.SuperuserCoversAdmin | auth/authorization.go:17-46 | whatever an admin is granted, the superuser is granted too |
| Auth.GrantedMethodsKnown | auth/authorization.go:17-46 | every granted method is GET, POST, PUT or DELETE |
| Auth.AllowedOnlyInOwnRestaurant | auth/authorization.go:108-119 | an allowed non-superuser request that names a restaurant names the caller's own |
| Auth.ScopedMatch | auth/authorization.go:49-65 | a scoped pattern on a restaurant path captures the id exactly when its tail matches |
| Auth.OrderRatingTail | auth/authorization.go:49-65 | an order's rating path has the rating pattern's tail |
| Auth.OtherCollectionTail | auth/authorization.go:49-65 | a different collection name does not match a collection pattern |
| Auth.RatingPathMatches | auth/authorization.go:49-65 | a rating path misses the category and product patterns and the rating pattern captures its restaurant |
| Auth.MissesFirstTwo | auth/authorization.go:49-65 | a path that is neither a category nor a product path misses the first two patterns |
| Auth.ThirdIsRating | auth/authorization.go:49-65 | the third pattern is the rating pattern |
| Auth.ClassifiedAsRating | auth/authorization.go:72-84 | a path the rating pattern is first to match is classified as a rating |
| Auth.RatingPathIsRatings | auth/authorization.go:49-84 | an order's rating path is classified as the ratings resource of its restaurant, not as orders |
| Auth.AuthPathMissesPattern | auth/authorization.go:49-65 | no pattern before the auth pattern matches a path under /auth/ |
| Auth.AuthPathsAlwaysAllowed | auth/authorization.go:86-100 | a path under /auth/ is allowed for any claims and method |
| Auth.RootMissesPattern | auth/authorization.go:49-65 | no single pattern matches the root path |
| Auth.RootMatchesNothing | auth/authorization.go:72-84 | the root path has no resource |
| Auth.RootIsUnknown | auth/authorization.go:92-94 | a path no pattern matches is denied as an unknown resource |
| AuthMiddleware.MatchPathReflexive | auth/middleware.go:51-69 | every path matches itself as a pattern |
| AuthMiddleware.MatchPathLiteral | auth/middleware.go:51-69 | without parameter segments a pattern matches exactly the path it spells |
| AuthMiddleware.MatchPathNeedsSameDepth | auth/middleware.go:55-57 | a pattern with a different number of segments never matches |
| AuthMiddleware.ExactCheckIsShortcut | auth/middleware.go:32-48 | the exact-path check gives no answer the pattern scan would not give |
| AuthMiddleware.WithPublicPathEffect | auth/middleware.go:25-30 | registering marks exactly the added path and method and leaves every other entry alone |
| AuthMiddleware.AddedPathIsPublic | auth/middleware.go:25-48 | after registering, that method on that path is public |
| AuthMiddleware.WithPublicPathMonotone | auth/middleware.go:25-48 | registering never makes a public request private |
| AuthMiddleware.Middleware.constructor | auth/middleware.go:18-23 | a new middleware has no public paths |
| AuthMiddleware.Middleware.AddPublicPath | auth/middleware.go:25-30 | the registry gains the method on the path, creating the path's entry when missing |
| AuthMiddleware.Middleware.IsPublicPath | auth/middleware.go:32-48 | the answer is true exactly when an exact entry or a matching pattern allows the method or "*" |
| AuthMiddleware.SplitAuthHeader | auth/middleware.go:72-78 | a header splits at its first space into a lower-cased scheme and the rest; without a space it is one piece |
| AuthMiddleware.SplitAuthHeaderOf | auth/middleware.go:72-78 | a scheme and rest come back as the lower-cased scheme and the rest, spaces included |
| AuthMiddleware.SplitAuthHeaderExample | auth/middleware.go:72-78 | "Bearer a b" gives "bearer" and "a b" |
| AuthMiddleware.ContainsExpired | auth/middleware.go:80-82 | true exactly when "expired" occurs in the text |
| CustomerService.OtpFromDraws | service/customer.go:213-226 | the draws spell a code of digits matching them one by one, or fail when a draw failed |
| CustomerService.GenerateOtp | service/customer.go:213-226 | the loop yields the code of the first draws, all digits and of the requested length, or the first draw error |
| CustomerService.OtpErrExtends | service/customer.go:217-221 | once a draw has failed, longer runs fail the same way |
| CustomerService.SendOtpSpec | service/customer.go:46-109 | a rejected send changes nothing; the checks run in order (phone, restaurant, hourly limit, cooldown, code generation) and the first that fails gives its own error; a send succeeds exactly when all pass |
| CustomerService.SendOtp | service/customer.go:46-109 | the method's reply and Redis writes are exactly those of SendOtpSpec |
| CustomerService.SendStoresCode | service/customer.go:78-95 | a successful send stores the drawn code with no attempts and blocks an immediate resend |
| CustomerService.SendCountsRequest | service/customer.go:91-95 | a counter written by this service goes up by exactly one with each successful send |
| CustomerService.VerifyOtpSpec | service/customer.go:112-179 | the checks run in order (phone, code, restaurant, stored entry, its format, spent attempts) and the first that fails gives its own error, a spent entry being deleted; success happens exactly when all pass and the code matches, returns the token and expiry, deletes the code and stores a session for the phone and restaurant |
| CustomerService.VerifyOtp | service/customer.go:112-179 | the method's reply and Redis writes are exactly those of VerifyOtpSpec |
| CustomerService.OtpAndSessionKeysDiffer | service/customer.go:26-31 | a code key and a session key never collide |
| CustomerService.VerifyOpensSession | service/customer.go:157-178 | after a successful verification the token looks up the new session |
| CustomerService.VerifySingleUse | service/customer.go:157-158 | a code works once: the same request again finds no code |
| CustomerService.WrongCodeCounts | service/customer.go:143-155 | a wrong code below the limit adds one attempt and reports how many remain |
| CustomerService.SpentCodeLocksOut | service/customer.go:138-141 | with five attempts spent even the right code fails, and the code is deleted |
| CustomerService.FiveWrongTriesLockOut | service/customer.go:138-155 | a fresh code survives four wrong tries, and after five the right code is refused |
| CustomerService.GetSession | service/customer.go:182-199 | a session is returned exactly when the token is non-empty and its key holds a session |
| CustomerService.InvalidateSession | service/customer.go:202-210 | an empty token is an error and changes nothing; otherwise only the session key is deleted |
| CustomerService.InvalidatedSessionIsGone | service/customer.go:182-210 | after a session is invalidated it can no longer be looked up |
| AuthService.Login | service/auth.go:28-59 | a token is issued exactly when the username and pin are given, the account exists, is active and the pin matches, and the signer succeeds; the token carries the staff member's claims |
| AuthService.UnknownUserLooksLikeWrongPin | service/auth.go:36-43 | an unknown username and a wrong pin give the same error |
| AuthService.InactiveNeverLogsIn | service/auth.go:45-47 | an inactive account is never let in |
| AuthService.SuperuserLogin | service/auth.go:61-88 | a token is issued exactly when the configured credentials are set and both match |
| AuthService.UnconfiguredSuperuserLocked | service/auth.go:65-71 | with no configured password nobody gets in |
| AuthService.SuperuserClaimsBypassOwnership | service/auth.go:73-88 | a superuser token comes only from the configured credentials and passes every ownership check |
| CacheAside.CacheKeysPerRestaurant | service/product.go:23 | each restaurant has its own cache key |
| CacheAside.KeySpacesDisjoint | service/category.go:23 | the product, category and settings keys never collide |
| CacheAside.ReadThrough | service/product.go:22-43 | a hit is returned as it is; on a miss the store's list is returned and cached, and a store error caches nothing |
| CacheAside.AfterWrite | service/product.go:99-102 | after a write the key is gone exactly when the store call succeeded, and every other key is unchanged |
| CacheAside.HitIgnoresStore | service/product.go:25-33 | a hit never depends on the store |
| CacheAside.MissThenHit | service/product.go:35-42 | a miss fills the cache, so the next read is a hit with the same list |
| CacheAside.WriteThenReadIsFresh | service/product.go:99-102 | after a successful write the next read returns the store's answer |
| CacheAside.ReadKeepsOtherKeys | service/product.go:22-43 | a read touches only its own key |
| CacheAside.GetAll | service/product.go:22-43 | the method's result and cache writes are those of ReadThrough |
| CacheAside.Invalidate | service/product.go:99-102 | the key is deleted |
| ProductService.DecodeEncode | service/product.go:35-39 | what the cache writes decodes back to the same products |
| ProductService.CreateError | service/product.go:53-64 | the guards in order: a blank name, a non-positive price, a missing category; none exactly when all three pass |
| ProductService.GetAll | service/product.go:22-43 | the cache-aside read under products:<id> |
| ProductService.Create | service/product.go:53-76 | a rejected product reaches neither store nor cache; an accepted one is inserted under the path's restaurant, and the key goes only if that worked |
| ProductService.Update | service/product.go:78-87 | the store's answer, and the key goes only on success |
| ProductService.Delete | service/product.go:89-97 | the store's answer, and the key goes only on success |
| CategoryService.DecodeEncode | service/category.go:35-39 | what the cache writes decodes back to the same categories |
| CategoryService.GetAll | service/category.go:22-43 | the cache-aside read under categories:<id> |
| CategoryService.Create | service/category.go:49-64 | a blank name is refused untouched; otherwise the insert under the path's restaurant, and the key goes only on success |
| CategoryService.Update | service/category.go:66-75 | the store's answer, and the key goes only on success |
| CategoryService.Delete | service/category.go:77-85 | the store's answer, and the key goes only on success |
| SettingsService.DecodeEncode | service/settings.go:35-39 | what the cache writes decodes back to the same settings |
| SettingsService.GetAll | service/settings.go:22-43 | the cache-aside read under settings:<id> |
| SettingsService.Upsert | service/settings.go:49-62 | a blank key is refused untouched; otherwise the store's upsert, and the key goes only on success |
| SettingsService.BulkUpsert | service/settings.go:64-73 | the store's bulk upsert, and the key goes only on success |
| SettingsService.Delete | service/settings.go:75-83 | the store's answer, and the key goes only on success |
| StaffService.CreateError | service/staff.go:28-44 | the guards in order: a blank username, the superuser role, a missing pin, a pin not six bytes long |
| StaffService.Create | service/staff.go:28-53 | a rejected record never reaches the store; an accepted one goes in with its defaults |
| StaffService.PreparedIsWellFormed | service/staff.go:45-52 | a stored record is an active non-superuser of the path's restaurant with a role, a username and a six-byte pin |
| StaffService.EmptyRoleBecomesChef | service/staff.go:45-47 | an empty role becomes chef |
| StaffService.Update | service/staff.go:55-65 | the superuser role is refused before anything else; a missing member is not found; otherwise the store's update |
| StaffService.NoSuperuserReachesStore | service/staff.go:28-65 | neither Create nor Update ever hands the store a superuser |
| StaffService.Delete | service/staff.go:67-73 | only an existing member of the restaurant is deleted |
| RestaurantService.GenerateSlug | service/restaurant.go:66-71 | the slug has the trimmed name's length and no spaces: each character lower-cased, each space a hyphen |
| RestaurantService.TrimmedEnds | service/restaurant.go:67 | a trimmed string neither starts nor ends with white space |
| RestaurantService.GenerateSlugIdempotent | service/restaurant.go:66-71 | generating a slug from a slug changes nothing |
| RestaurantService.SlugOfNamedRestaurantNotBlank | service/restaurant.go:37-39 | a named restaurant gets a slug that is not blank |
| RestaurantService.Create | service/restaurant.go:32-48 | a blank name is refused; otherwise the prepared record is inserted |
| RestaurantService.PreparedIsWellFormed | service/restaurant.go:37-45 | a stored restaurant has a non-blank slug, a currency and is active, and keeps a slug or currency the client gave |
| RestaurantService.Update | service/restaurant.go:50-56 | only an existing restaurant is updated |
| RestaurantService.Delete | service/restaurant.go:58-64 | only an existing restaurant is deleted |
| RatingService.Stamped | service/rating.go:51-52 | the rating takes the path's order and restaurant and keeps the client's score and comment |
| RatingService.Create | service/rating.go:28-55 | the score range, then the order in this restaurant, then its completion, then an earlier rating, before the insert |
| RatingService.ClientIdsIgnored | service/rating.go:51-54 | the ids in the body never change the outcome |
| RatingService.InsertOnlyForCompletedUnrated | service/rating.go:28-55 | an insert happens only for an in-range score on a completed, unrated order of this restaurant |
| RatingService.ForeignOrderNotFound | service/rating.go:34-38 | another restaurant's order cannot be rated through this restaurant |
| Redis.RedisInteger | strategy/round_robin.go:30 | a value Redis reads as an integer lies in the signed 64-bit range |
| Redis.RedisIntegerItoa | strategy/round_robin.go:30 | what INCR writes it reads back |
| Redis.IncrStep | strategy/round_robin.go:30 | INCR creates a missing key at 1, adds one to a stored integer below the maximum, and otherwise errs without a write |
| Redis.IncrTwice | service/customer.go:94 | two INCRs of one counter give consecutive replies |
| Redis.Client.constructor | service/customer.go:57 | a new client sees an empty key space |
| Redis.Client.Get | service/customer.go:127 | the value under the key, or nothing when the key is missing |
| Redis.Client.Set | service/customer.go:85 | the key holds the new value and nothing else changes |
| Redis.Client.Del | service/customer.go:139 | the key is gone and nothing else changes |
| Redis.Client.Incr | service/customer.go:94 | the reply and the new key space are those of IncrStep |
| Seqs.FirstIndex | service/order.go:211-219 | the first position holding the value |
| Seqs.Dedup | service/order.go:211-219 | no duplicates, nothing new, nothing lost, and no longer than the input |
| Seqs.FirstIndexIs | service/order.go:211-219 | a position with no earlier copy is the first index |
| Seqs.FirstIndexOfPrefix | service/order.go:211-219 | a value in a prefix has the same first index there |
| Seqs.DedupPrefix | service/order.go:211-219 | the dedup of a prefix is a prefix of the dedup |
| Seqs.DedupLastNew | service/order.go:211-219 | when the dedup grows at the last element, that element occurs nowhere before |
| Seqs.DedupFirstOccurrenceOrder | service/order.go:211-219 | deduplicated ids keep their first-occurrence order |
| Strings.DigitChar | service/customer.go:222-223 | the character of a digit is a digit with that value |
| Strings.NatToString | service/product.go:23 | a non-empty run of digits |
| Strings.Itoa | service/product.go:23 | non-empty, with a minus sign exactly for negative numbers |
| Strings.ParseNatToString | service/product.go:23 | reading back the digits gives the number |
| Strings.ItoaInjective | service/product.go:23 | distinct numbers render differently |
| Strings.PrefixedItoaInjective | service/product.go:23 | the same prefix with distinct numbers gives distinct keys |
| Strings.AtoiDigits | auth/authorization.go:78 | the value of a digit run, saturated at the int64 maximum |
| Strings.NatToStringLeadingDigit | service/product.go:23 | only 0 renders with a leading zero |
| Strings.AtoiIgnoringError | service/customer.go:57 | the result is in the int64 range and equals the digits' value for a digit run |
| Strings.AtoiUnsigned | service/customer.go:57 | the result is in the int64 range and equals the digits' value for an unsigned digit run |
| Strings.AtoiOverflowIgnoresRest | service/customer.go:57 | digits past 2^64 - 1 give the int64 bound of the sign, whatever follows them |
| Strings.AtoiTrailingJunk | service/customer.go:57 | digits that fit in 64 bits followed by a non-digit give 0 |
| Strings.AtoiNegative | service/customer.go:57 | a minus sign negates the digits' value, down to the smallest int64 |
| Strings.AtoiItoa | auth/authorization.go:78 | Atoi reads back every int64 that Itoa wrote |
| Strings.Split | auth/middleware.go:52-53 | at least one piece |
| Strings.SplitCount | auth/middleware.go:52-55 | one more piece than there are separators |
| Strings.SplitPiecesHaveNoSep | auth/middleware.go:52-53 | no piece contains the separator |
| Strings.JoinSplit | auth/middleware.go:52-53 | joining the pieces with the separator gives back the string |
| Strings.IndexOfChar | auth/middleware.go:73 | the first position of the character, or the length when it is absent |
| Strings.SplitFirst | auth/middleware.go:73 | one piece exactly when there is no separator; otherwise the two pieces around the first one |
| Strings.ContainsAt | auth/middleware.go:81 | an occurrence at a position makes Contains true |
| Strings.ContainsWitness | auth/middleware.go:81 | a string that contains the text has it at some position |
| Strings.ContainsIff | auth/middleware.go:81 | Contains holds exactly when the text occurs at some position |
| Strings.TrimLeftSpace | service/restaurant.go:67 | a suffix that drops only leading white space and starts with a non-space |
| Strings.TrimRightSpace | service/restaurant.go:67 | a prefix that drops only trailing white space and ends with a non-space |
| Strings.AllSpaceTrimsToEmpty | service/product.go:54 | a string of white space trims to nothing |
| Strings.NonSpaceNotBlank | service/product.go:54 | a non-space character keeps a string from being blank |
| Strings.BlankIffAllSpace | service/product.go:54 | a string is blank exactly when it is all white space |
| Strings.TrimSpaceNoOp | service/restaurant.go:67 | a string with no white space at either end is left alone |
| Strings.ToLower | service/restaurant.go:67 | same length, each character lower-cased |
| Strings.ReplaceChar | service/restaurant.go:68 | same length, every occurrence of the character replaced and the rest kept |
| Strings.Utf8LenAscii | service/staff.go:41 | on ASCII text the byte length is the character count |
| Strings.Utf8LenAtLeast | service/staff.go:41 | the byte length is at least the character count |

## Left out

- SQL text and the database are not run. The order, product, staff and settings queries the core
  uses are functions over in-memory tables. The other stores' CRUD queries are function
  parameters.
- Prices and totals are integers in minor units, not floats.
- Key expiry (TTLs) is not modelled. Set drops its expiry argument, and the cooldown value is a
  parameter. Redis outages are not modelled, apart from INCR's type and overflow errors.
- ToLower lower-cases ASCII letters only. TrimSpace uses the white-space set of
  unicode.IsSpace.
- Concurrency is not modelled: each request runs alone against the state.
- Logging is not modelled, including the line that writes each generated code to the service
  log (service/customer.go:76).
- The clock, uuid generation, crypto/rand and math/rand are parameters.
- The JWT signer is an oracle parameter; token parsing is not part of this model.
- JSON marshalling is not modelled. Cache entries are typed values, so a value the services
  never wrote (a stray text value) decodes as a miss.
- The HTTP handlers and routing are not modelled. Sending the SMS is not modelled either: it
  runs in a goroutine and its failure does not change the reply.
- Totals and estimates are unbounded integers; int64 overflow is not modelled.
- Strategy.RoundRobinAssign: requires that INCR's reply does not give a negative index, which
  happens only for a negative reply whose predecessor is not a multiple of the chef count (a
  stored "-2" with three chefs); Go panics there. Other negative counters, such as a stored
  "-1" with one chef, are modelled. OrderService.Create, Strategy.AssignSpec and
  Strategy.Assign carry the same requirement, the first only when round robin is reached.
- MySQL type coercion is not modelled, nor the row order of GROUP BY.
- OrderService.Create: one `now` serves both the estimate and the insert timestamps.
- CustomerService.SendCountsRequest: covers only counters this service wrote itself (absent,
  or the text of a positive number).
- The authorization regexes are hand-written matchers of the same shapes.
- Strings.AtoiIgnoringError: follows strconv.Atoi on a 64-bit platform; Go's short-input
  fast path is not written out separately, since it gives the same values.
- AuthMiddleware.Middleware.IsPublicPath: Go's map iteration order is not modelled; it does
  not affect the answer.
- Auth.ExtractResourceInfo has no contract of its own; its properties are in
  Auth.ExtractResourceInfoSpec.
- The plain delegations to the stores are not modelled: Product.GetByCategory and GetByID,
  Category.GetByID, Settings.GetByKey, Rating.GetAllByRestaurant and GetByOrderID,
  Staff.GetAll and GetByID, Restaurant.GetAll, GetByID and GetBySlug, and Order.GetAll,
  GetByStatus, GetByPhone and Delete.
- The services change their input structs in place; the model passes record copies.
- Store.LeastRecent: follows MySQL's ordering, which puts NULL first in ascending order.
