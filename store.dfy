/**
 * The SQL stores the order flow reads and writes. The database is a value holding one
 * sequence per table, rows in insertion order, together with the set of queries that fail
 * when issued. Each query is the function of the tables that its SQL
 * text computes; the loops that build placeholder lists, join SET clauses and fill result
 * maps stay loops.
 */
module Store {
  import opened Wrappers
  import opened Strings
  import opened Seqs
  import opened Model

  /** The queries of the stores; a query named in `Db.failing` returns a driver error. */
  datatype Call =
    | ActiveChefs
    | ChefLoads
    | LeastRecentChef
    | ChefActiveOrderCount
    | PrepTimes
    | SettingByKey
    | OrderByID
    | InsertOrder
    | UpdateOrder

  datatype Db = Db(
    staff: seq<Staff>,
    orders: seq<Order>,
    products: seq<Product>,
    settings: seq<Setting>,
    failing: set<Call>)

  const ErrNoRows: string := "sql: no rows in result set"
  const ErrQuery: string := "query failed"
  const ErrArgCount: string := "sql: placeholder and argument counts differ"
  const ErrBadAssignment: string := "sql: unknown column or value"

  /** A value bound to a `?` placeholder. A JSON-encoded items list is kept as the list. */
  datatype Arg = AInt(i: int) | AStr(s: string) | AItems(items: seq<OrderItem>) | ATime(t: Time)

  // ---------------------------------------------------------------------------
  // Placeholder lists: "?,?,...,?" and the arguments bound to them.
  // ---------------------------------------------------------------------------

  /** `n` question marks separated by commas. */
  function Placeholders(n: nat): string {
    Join(seq(n, _ => "?"), ",")
  }

  function IntArgs(ids: seq<int>): (args: seq<Arg>)
    ensures |args| == |ids| && forall i :: 0 <= i < |ids| ==> args[i] == AInt(ids[i])
  {
    seq(|ids|, i requires 0 <= i < |ids| => AInt(ids[i]))
  }

  /** The integers bound as arguments; a non-integer argument reads as 0. */
  function IntsOf(args: seq<Arg>): (ids: seq<int>)
    ensures |ids| == |args|
    ensures forall i :: 0 <= i < |args| && args[i].AInt? ==> ids[i] == args[i].i
  {
    seq(|args|, i requires 0 <= i < |args| => if args[i].AInt? then args[i].i else 0)
  }

  lemma IntsOfIntArgs(ids: seq<int>)
    ensures IntsOf(IntArgs(ids)) == ids
  {
  }

  lemma PlaceholdersSnoc(n: nat)
    requires n > 0
    ensures Placeholders(n + 1) == Placeholders(n) + "," + "?"
  {
    assert seq(n + 1, _ => "?") == seq(n, _ => "?") + ["?"];
    JoinSnoc(seq(n, _ => "?"), "?", ",");
  }

  /** The placeholder list alternates '?' and ',', starting and ending with '?'. */
  lemma {:induction false} PlaceholdersShape(n: nat)
    requires n > 0
    ensures |Placeholders(n)| == 2 * n - 1
    ensures forall i :: 0 <= i < |Placeholders(n)| ==> Placeholders(n)[i] == (if i % 2 == 0 then '?' else ',')
  {
    if n == 1 {
      assert seq(1, _ => "?") == ["?"];
    } else {
      var p := Placeholders(n - 1);
      PlaceholdersShape(n - 1);
      PlaceholdersSnoc(n - 1);
      var q := Placeholders(n);
      assert q == p + [',', '?'];
      forall i | 0 <= i < |q|
        ensures q[i] == (if i % 2 == 0 then '?' else ',')
      {
        if i < |p| {
          assert q[i] == p[i];
        } else if i == |p| {
          assert i % 2 == 1;
        } else {
          assert i == |p| + 1 && i % 2 == 0;
        }
      }
    }
  }

  /** The placeholder list holds one '?' per id. */
  lemma {:induction false} PlaceholdersCount(n: nat)
    ensures CountChar(Placeholders(n), '?') == n
  {
    if n == 1 {
      assert seq(1, _ => "?") == ["?"];
    } else if n > 1 {
      PlaceholdersCount(n - 1);
      PlaceholdersSnoc(n - 1);
      assert Placeholders(n) == Placeholders(n - 1) + [','] + ['?'];
      CountCharAppend(Placeholders(n - 1) + [','], ['?'], '?');
      CountCharAppend(Placeholders(n - 1), [','], '?');
    }
  }

  /**
   * The shared prefix of the IN-list queries: one placeholder per id, and the arguments
   * [restaurantID] followed by the ids in order.
   */
  method BuildInList(restaurantId: int, ids: seq<int>) returns (placeholders: string, args: seq<Arg>)
    ensures placeholders == Placeholders(|ids|)
    ensures args == [AInt(restaurantId)] + IntArgs(ids)
  {
    placeholders := "";
    args := [AInt(restaurantId)];
    for i := 0 to |ids|
      invariant placeholders == Placeholders(i)
      invariant args == [AInt(restaurantId)] + IntArgs(ids[..i])
    {
      if i > 0 {
        placeholders := placeholders + ",";
        PlaceholdersSnoc(i);
      } else {
        assert seq(1, _ => "?") == ["?"];
      }
      placeholders := placeholders + "?";
      assert IntArgs(ids[..i + 1]) == IntArgs(ids[..i]) + [AInt(ids[i])];
      args := args + [AInt(ids[i])];
    }
    assert ids[..|ids|] == ids;
  }

  /** Both IN-list queries have one placeholder per argument. */
  lemma InListBalanced(restaurantId: int, ids: seq<int>)
    ensures 1 + CountChar(Placeholders(|ids|), '?') == |[AInt(restaurantId)] + IntArgs(ids)|
  {
    PlaceholdersCount(|ids|);
  }

  // ---------------------------------------------------------------------------
  // Staff: the active chefs of a restaurant.
  // ---------------------------------------------------------------------------

  predicate IsActiveChef(s: Staff, restaurantId: int) {
    s.restaurantId == restaurantId && s.role == RoleChef && s.active
  }

  /** The staff rows that are active chefs of the restaurant, in table order. */
  function ActiveChefsOf(staff: seq<Staff>, restaurantId: int): (chefs: seq<Staff>)
    ensures |chefs| <= |staff|
    ensures forall i :: 0 <= i < |chefs| ==> chefs[i] in staff && IsActiveChef(chefs[i], restaurantId)
    ensures forall s :: s in staff && IsActiveChef(s, restaurantId) ==> s in chefs
  {
    if |staff| == 0 then []
    else
      var init := ActiveChefsOf(staff[..|staff| - 1], restaurantId);
      assert staff == staff[..|staff| - 1] + [staff[|staff| - 1]];
      if IsActiveChef(staff[|staff| - 1], restaurantId) then init + [staff[|staff| - 1]] else init
  }

  predicate IdsAscending(staff: seq<Staff>) {
    forall i, j :: 0 <= i < j < |staff| ==> staff[i].id < staff[j].id
  }

  /** Filtering keeps ascending ids ascending. */
  lemma {:induction false} ActiveChefsAscending(staff: seq<Staff>, restaurantId: int)
    requires IdsAscending(staff)
    ensures IdsAscending(ActiveChefsOf(staff, restaurantId))
  {
    if |staff| > 0 {
      var init := staff[..|staff| - 1];
      ActiveChefsAscending(init, restaurantId);
      var last := staff[|staff| - 1];
      var c := ActiveChefsOf(init, restaurantId);
      forall i | 0 <= i < |c|
        ensures c[i].id < last.id
      {
        var k :| 0 <= k < |init| && init[k] == c[i];
      }
    }
  }

  predicate IdsSorted(staff: seq<Staff>) {
    forall i, j :: 0 <= i < j < |staff| ==> staff[i].id <= staff[j].id
  }

  /** A row with an id at least that of every row extends a sorted list. */
  lemma SortedSnoc(s: seq<Staff>, y: Staff)
    requires IdsSorted(s) && forall k :: 0 <= k < |s| ==> s[k].id <= y.id
    ensures IdsSorted(s + [y])
  {
  }

  /** `x` placed after every row at the end of `s` whose id is larger than its own. */
  function InsertById(s: seq<Staff>, x: Staff): (r: seq<Staff>)
    ensures |r| == |s| + 1
    decreases |s|
  {
    if |s| == 0 || s[|s| - 1].id <= x.id then s + [x]
    else InsertById(s[..|s| - 1], x) + [s[|s| - 1]]
  }

  /** Inserting adds exactly the one row. */
  lemma {:induction false} InsertByIdPermutes(s: seq<Staff>, x: Staff)
    ensures multiset(InsertById(s, x)) == multiset(s) + multiset{x}
    decreases |s|
  {
    if |s| > 0 && s[|s| - 1].id > x.id {
      InsertByIdPermutes(s[..|s| - 1], x);
      assert s == s[..|s| - 1] + [s[|s| - 1]];
    }
  }

  /** Inserting into an id-sorted list keeps it sorted. */
  lemma {:induction false} InsertByIdSorted(s: seq<Staff>, x: Staff)
    requires IdsSorted(s)
    ensures IdsSorted(InsertById(s, x))
    decreases |s|
  {
    if |s| == 0 || s[|s| - 1].id <= x.id {
      SortedSnoc(s, x);
    } else {
      var init := s[..|s| - 1];
      var last := s[|s| - 1];
      var r' := InsertById(init, x);
      InsertByIdSorted(init, x);
      InsertByIdPermutes(init, x);
      forall k | 0 <= k < |r'|
        ensures r'[k].id <= last.id
      {
        assert r'[k] in multiset(r');
        if r'[k] != x {
          var m :| 0 <= m < |init| && init[m] == r'[k];
          assert s[m] == init[m];
        }
      }
      SortedSnoc(r', last);
    }
  }

  /** The rows sorted by id, rows with equal ids kept in table order: ORDER BY id ASC. */
  function SortById(s: seq<Staff>): (r: seq<Staff>)
    ensures multiset(r) == multiset(s)
    ensures IdsSorted(r)
    decreases |s|
  {
    if |s| == 0 then []
    else
      var init := s[..|s| - 1];
      assert s == init + [s[|s| - 1]];
      InsertByIdPermutes(SortById(init), s[|s| - 1]);
      InsertByIdSorted(SortById(init), s[|s| - 1]);
      InsertById(SortById(init), s[|s| - 1])
  }

  lemma AscendingInit(s: seq<Staff>)
    requires IdsAscending(s) && |s| > 0
    ensures IdsAscending(s[..|s| - 1])
    ensures |s| > 1 ==> s[|s| - 2].id < s[|s| - 1].id
  {
  }

  /** Rows already in ascending id order are left as they are. */
  lemma {:induction false} SortByIdAscending(s: seq<Staff>)
    requires IdsAscending(s)
    ensures SortById(s) == s
    decreases |s|
  {
    if |s| > 0 {
      var init := s[..|s| - 1];
      var last := s[|s| - 1];
      assert s == init + [last];
      AscendingInit(s);
      SortByIdAscending(init);
      assert SortById(s) == InsertById(init, last);
      assert InsertById(init, last) == init + [last];
    }
  }

  /** Two chefs listed with the higher id first come back lower id first. */
  lemma SortByIdSwaps(a: Staff, b: Staff)
    requires a.id > b.id
    ensures SortById([a, b]) == [b, a]
  {
    assert [a, b][..1] == [a];
    assert [a][..0] == [];
    assert SortById([a]) == InsertById([], a) == [a];
    assert InsertById([a], b) == InsertById([], b) + [a];
  }

  /**
   * GetActiveChefs: the restaurant's active chefs, ORDER BY id ASC. Each row returned is an
   * active chef of the table; GetActiveChefsExactly adds that every such row is returned,
   * as often as the table holds it.
   */
  function GetActiveChefs(db: Db, restaurantId: int): (r: Result<seq<Staff>>)
    ensures r.Err? <==> ActiveChefs in db.failing
    ensures r.Ok? ==> IdsSorted(r.value)
    ensures r.Ok? ==> forall i :: 0 <= i < |r.value| ==> r.value[i] in db.staff && IsActiveChef(r.value[i], restaurantId)
  {
    if ActiveChefs in db.failing then Err(ErrQuery)
    else
      var chefs := SortById(ActiveChefsOf(db.staff, restaurantId));
      assert forall i :: 0 <= i < |chefs| ==> chefs[i] in ActiveChefsOf(db.staff, restaurantId) by {
        forall i | 0 <= i < |chefs|
          ensures chefs[i] in ActiveChefsOf(db.staff, restaurantId)
        {
          assert chefs[i] in multiset(chefs);
        }
      }
      Ok(chefs)
  }

  /** The chef list is a permutation of the active chef rows, so it misses none of them. */
  lemma GetActiveChefsExactly(db: Db, restaurantId: int)
    requires ActiveChefs !in db.failing
    ensures multiset(GetActiveChefs(db, restaurantId).value) == multiset(ActiveChefsOf(db.staff, restaurantId))
    ensures forall s :: s in db.staff && IsActiveChef(s, restaurantId) ==> s in GetActiveChefs(db, restaurantId).value
  {
    var chefs := GetActiveChefs(db, restaurantId).value;
    forall s | s in db.staff && IsActiveChef(s, restaurantId)
      ensures s in chefs
    {
      assert s in multiset(ActiveChefsOf(db.staff, restaurantId));
    }
  }

  /** With the table in ascending id order, the chefs come back in table order. */
  lemma GetActiveChefsTableOrder(db: Db, restaurantId: int)
    requires IdsAscending(db.staff) && ActiveChefs !in db.failing
    ensures GetActiveChefs(db, restaurantId) == Ok(ActiveChefsOf(db.staff, restaurantId))
  {
    ActiveChefsAscending(db.staff, restaurantId);
    SortByIdAscending(ActiveChefsOf(db.staff, restaurantId));
  }

  // ---------------------------------------------------------------------------
  // Orders: open-order counts per chef.
  // ---------------------------------------------------------------------------

  predicate IsOpenStatus(status: string) {
    status == StatusPending || status == StatusPreparing
  }

  /** An open order of `chef`, in restaurant `restaurantId` when one is given. */
  predicate OpenFor(o: Order, chef: int, restaurantId: Option<int>) {
    IsOpenStatus(o.status) && o.assignedChefId == Some(chef)
    && (restaurantId.None? || o.restaurantId == restaurantId.value)
  }

  function CountOpen(orders: seq<Order>, chef: int, restaurantId: Option<int>): nat {
    if |orders| == 0 then 0
    else CountOpen(orders[..|orders| - 1], chef, restaurantId)
         + (if OpenFor(orders[|orders| - 1], chef, restaurantId) then 1 else 0)
  }

  lemma CountOpenSnoc(orders: seq<Order>, o: Order, chef: int, restaurantId: Option<int>)
    ensures CountOpen(orders + [o], chef, restaurantId)
            == CountOpen(orders, chef, restaurantId) + (if OpenFor(o, chef, restaurantId) then 1 else 0)
  {
    assert (orders + [o])[..|orders|] == orders;
  }

  /** An order that GetChefLoads groups: open, of the restaurant, with a chef. */
  predicate CountsForLoad(o: Order, restaurantId: int) {
    o.restaurantId == restaurantId && IsOpenStatus(o.status) && o.assignedChefId.Some?
  }

  /** The chef of each order GetChefLoads groups, in table order with repetitions. */
  function LoadChefIds(orders: seq<Order>, restaurantId: int): seq<int> {
    if |orders| == 0 then []
    else
      var init := LoadChefIds(orders[..|orders| - 1], restaurantId);
      var o := orders[|orders| - 1];
      if CountsForLoad(o, restaurantId) then init + [o.assignedChefId.value] else init
  }

  /** A chef is grouped exactly when it has an open order in the restaurant. */
  lemma {:induction false} LoadChefIdsIff(orders: seq<Order>, restaurantId: int, chef: int)
    ensures chef in LoadChefIds(orders, restaurantId) <==> CountOpen(orders, chef, Some(restaurantId)) >= 1
  {
    if |orders| > 0 {
      LoadChefIdsIff(orders[..|orders| - 1], restaurantId, chef);
    }
  }

  /**
   * The rows of
   * `SELECT assigned_chef_id, COUNT(*) ... WHERE restaurant_id = ? AND status IN
   * ('pending','preparing') AND assigned_chef_id IS NOT NULL GROUP BY assigned_chef_id`,
   * one per chef, in order of each chef's first grouped order.
   */
  function ChefLoadsOf(orders: seq<Order>, restaurantId: int): (loads: seq<ChefLoad>)
    ensures forall i :: 0 <= i < |loads| ==> loads[i].orderCount == CountOpen(orders, loads[i].chefId, Some(restaurantId))
  {
    var ids := Dedup(LoadChefIds(orders, restaurantId));
    seq(|ids|, i requires 0 <= i < |ids| => ChefLoad(ids[i], CountOpen(orders, ids[i], Some(restaurantId))))
  }

  /** No chef has two rows. */
  lemma ChefLoadsDistinct(orders: seq<Order>, restaurantId: int, i: nat, j: nat)
    requires i < j < |ChefLoadsOf(orders, restaurantId)|
    ensures ChefLoadsOf(orders, restaurantId)[i].chefId != ChefLoadsOf(orders, restaurantId)[j].chefId
  {
    var ids := Dedup(LoadChefIds(orders, restaurantId));
    assert ChefLoadsOf(orders, restaurantId)[i].chefId == ids[i];
    assert ChefLoadsOf(orders, restaurantId)[j].chefId == ids[j];
  }

  /** Every grouped row counts at least one order. */
  lemma ChefLoadCountPositive(orders: seq<Order>, restaurantId: int, i: nat)
    requires i < |ChefLoadsOf(orders, restaurantId)|
    ensures ChefLoadsOf(orders, restaurantId)[i].orderCount >= 1
  {
    var ids := Dedup(LoadChefIds(orders, restaurantId));
    assert ChefLoadsOf(orders, restaurantId)[i].chefId == ids[i];
    LoadChefIdsIff(orders, restaurantId, ids[i]);
  }

  /** A chef with an open order in the restaurant has a row. */
  lemma ChefLoadsCover(orders: seq<Order>, restaurantId: int, chef: int)
    requires CountOpen(orders, chef, Some(restaurantId)) >= 1
    ensures exists i :: 0 <= i < |ChefLoadsOf(orders, restaurantId)| && ChefLoadsOf(orders, restaurantId)[i].chefId == chef
  {
    var ids := Dedup(LoadChefIds(orders, restaurantId));
    LoadChefIdsIff(orders, restaurantId, chef);
    var k :| 0 <= k < |LoadChefIds(orders, restaurantId)| && LoadChefIds(orders, restaurantId)[k] == chef;
    var i :| 0 <= i < |ids| && ids[i] == chef;
    assert ChefLoadsOf(orders, restaurantId)[i].chefId == chef;
  }

  function GetChefLoads(db: Db, restaurantId: int): (r: Result<seq<ChefLoad>>)
    ensures r.Err? <==> ChefLoads in db.failing
  {
    if ChefLoads in db.failing then Err(ErrQuery) else Ok(ChefLoadsOf(db.orders, restaurantId))
  }

  /** `SELECT COUNT(*) ... WHERE assigned_chef_id = ? AND status IN ('pending','preparing')`. */
  function GetChefActiveOrderCount(db: Db, chef: int): (r: Result<int>)
    ensures r.Err? <==> ChefActiveOrderCount in db.failing
    ensures r.Ok? ==> r.value >= 0
  {
    if ChefActiveOrderCount in db.failing then Err(ErrQuery) else Ok(CountOpen(db.orders, chef, None))
  }

  /** The active-order count spans all restaurants, so it is at least the chef's load in any one. */
  lemma {:induction false} ActiveCountCoversLoad(orders: seq<Order>, chef: int, restaurantId: int)
    ensures CountOpen(orders, chef, None) >= CountOpen(orders, chef, Some(restaurantId))
  {
    if |orders| > 0 {
      ActiveCountCoversLoad(orders[..|orders| - 1], chef, restaurantId);
    }
  }

  /** An open order of another restaurant raises the chef's count but not its load here. */
  lemma ActiveCountIgnoresRestaurant(orders: seq<Order>, o: Order, chef: int, restaurantId: int)
    requires OpenFor(o, chef, None) && o.restaurantId != restaurantId
    ensures CountOpen(orders + [o], chef, None) == CountOpen(orders, chef, None) + 1
    ensures CountOpen(orders + [o], chef, Some(restaurantId)) == CountOpen(orders, chef, Some(restaurantId))
  {
    CountOpenSnoc(orders, o, chef, None);
    CountOpenSnoc(orders, o, chef, Some(restaurantId));
  }

  // ---------------------------------------------------------------------------
  // Orders: the least recently assigned chef.
  // ---------------------------------------------------------------------------

  /**
   * MAX(created_at) over the orders of the restaurant assigned to `chef`, whatever their
   * status; None stands for SQL NULL, the value of a chef with no such order.
   */
  function LastAssigned(orders: seq<Order>, restaurantId: int, chef: int): (t: Option<Time>)
    ensures t.Some? ==> exists k :: 0 <= k < |orders| && orders[k].restaurantId == restaurantId
                                    && orders[k].assignedChefId == Some(chef) && orders[k].createdAt == t.value
    ensures forall k :: 0 <= k < |orders| && orders[k].restaurantId == restaurantId && orders[k].assignedChefId == Some(chef)
                        ==> t.Some? && orders[k].createdAt <= t.value
  {
    if |orders| == 0 then None
    else
      var init := orders[..|orders| - 1];
      var t := LastAssigned(init, restaurantId, chef);
      var o := orders[|orders| - 1];
      assert forall k :: 0 <= k < |init| ==> orders[k] == init[k];
      if o.restaurantId == restaurantId && o.assignedChefId == Some(chef) then
        Some(if t.Some? && t.value > o.createdAt then t.value else o.createdAt)
      else t
  }

  /** `ORDER BY last_assigned ASC`: NULL sorts before every time. */
  predicate TimeBefore(a: Option<Time>, b: Option<Time>) {
    (a.None? && b.Some?) || (a.Some? && b.Some? && a.value < b.value)
  }

  /** `ORDER BY last_assigned ASC, s.id ASC`: chef `a` sorts no later than chef `b`. */
  predicate SortsNoLater(orders: seq<Order>, restaurantId: int, a: int, b: int) {
    var ta := LastAssigned(orders, restaurantId, a);
    var tb := LastAssigned(orders, restaurantId, b);
    TimeBefore(ta, tb) || (ta == tb && a <= b)
  }

  /** The ids of the staff rows matched by `WHERE s.id IN (...)`, in table order. */
  function StaffIdsIn(staff: seq<Staff>, ids: seq<int>): (found: seq<int>)
    ensures forall i :: 0 <= i < |found| ==> found[i] in ids
  {
    if |staff| == 0 then []
    else
      var init := StaffIdsIn(staff[..|staff| - 1], ids);
      var s := staff[|staff| - 1];
      if s.id in ids then init + [s.id] else init
  }

  /** The first row of the ordering: the candidate that sorts no later than every other. */
  function LeastRecent(orders: seq<Order>, restaurantId: int, candidates: seq<int>): (c: int)
    requires |candidates| > 0
    ensures c in candidates
    ensures forall k :: k in candidates ==> SortsNoLater(orders, restaurantId, c, k)
  {
    if |candidates| == 1 then candidates[0]
    else
      var rest := LeastRecent(orders, restaurantId, candidates[..|candidates| - 1]);
      var last := candidates[|candidates| - 1];
      assert candidates == candidates[..|candidates| - 1] + [last];
      if SortsNoLater(orders, restaurantId, rest, last) then rest else last
  }

  /** Never-assigned candidates come first: if any candidate has no order, the winner has none. */
  lemma NeverAssignedFirst(orders: seq<Order>, restaurantId: int, candidates: seq<int>, k: int)
    requires k in candidates && LastAssigned(orders, restaurantId, k).None?
    ensures LastAssigned(orders, restaurantId, LeastRecent(orders, restaurantId, candidates)).None?
  {
    assert SortsNoLater(orders, restaurantId, LeastRecent(orders, restaurantId, candidates), k);
  }

  /** The result of the selecting query for the bound restaurant id and chef ids. */
  function SelectLeastRecent(db: Db, restaurantId: int, ids: seq<int>): (r: Result<Option<int>>)
    ensures r.Ok? ==> r.value.Some? && r.value.value in ids
  {
    if LeastRecentChef in db.failing then Err(ErrQuery)
    else
      var candidates := StaffIdsIn(db.staff, ids);
      if |candidates| == 0 then Err(ErrNoRows)
      else Ok(Some(LeastRecent(db.orders, restaurantId, candidates)))
  }

  /**
   * No ids: no chef and no query. Otherwise the query bound to [restaurantID] followed by
   * the ids picks the first row of the ordering.
   */
  method GetLeastRecentlyAssignedChef(db: Db, restaurantId: int, chefIds: seq<int>) returns (r: Result<Option<int>>)
    ensures |chefIds| == 0 ==> r == Ok(None)
    ensures |chefIds| > 0 ==> r == SelectLeastRecent(db, restaurantId, chefIds)
  {
    if |chefIds| == 0 {
      return Ok(None);
    }
    var placeholders, args := BuildInList(restaurantId, chefIds);
    assert args[1..] == IntArgs(chefIds);
    IntsOfIntArgs(chefIds);
    r := SelectLeastRecent(db, args[0].i, IntsOf(args[1..]));
  }

  // ---------------------------------------------------------------------------
  // Products: preparation times.
  // ---------------------------------------------------------------------------

  /** The rows (id, prep_time) of the restaurant's products whose id is listed, in table order. */
  function PrepTimeRows(products: seq<Product>, restaurantId: int, ids: seq<int>): (rows: seq<(int, int)>)
    ensures forall j :: 0 <= j < |rows| ==> rows[j].0 in ids
  {
    if |products| == 0 then []
    else
      var init := PrepTimeRows(products[..|products| - 1], restaurantId, ids);
      var p := products[|products| - 1];
      if p.restaurantId == restaurantId && p.id in ids then init + [(p.id, p.prepTime)] else init
  }

  /** The map the scan loop builds: each row writes its id, so a later row overwrites an earlier one. */
  function RowsToMap(rows: seq<(int, int)>): map<int, int> {
    if |rows| == 0 then map[]
    else RowsToMap(rows[..|rows| - 1])[rows[|rows| - 1].0 := rows[|rows| - 1].1]
  }

  /** The keys of the map are exactly the ids of the rows. */
  lemma {:induction false} RowsToMapKeys(rows: seq<(int, int)>, k: int)
    ensures k in RowsToMap(rows) <==> exists j :: 0 <= j < |rows| && rows[j].0 == k
  {
    if |rows| > 0 {
      var init := rows[..|rows| - 1];
      RowsToMapKeys(init, k);
      if k in RowsToMap(init) {
        var j :| 0 <= j < |init| && init[j].0 == k;
        assert rows[j].0 == k;
      }
      if exists j :: 0 <= j < |rows| && rows[j].0 == k {
        var j :| 0 <= j < |rows| && rows[j].0 == k;
        if j < |init| {
          assert init[j].0 == k;
        }
      }
    }
  }

  /** The value under an id is the prep time of the last row with that id. */
  lemma {:induction false} RowsToMapLastWins(rows: seq<(int, int)>, j: nat)
    requires j < |rows|
    requires forall l :: j < l < |rows| ==> rows[l].0 != rows[j].0
    ensures rows[j].0 in RowsToMap(rows) && RowsToMap(rows)[rows[j].0] == rows[j].1
  {
    if j < |rows| - 1 {
      var init := rows[..|rows| - 1];
      assert init[j] == rows[j];
      RowsToMapLastWins(init, j);
    }
  }

  /**
   * No ids: an empty map and no query. Otherwise the query bound to [restaurantID] followed
   * by the ids, scanned row by row into a map.
   */
  method GetPrepTimes(db: Db, restaurantId: int, productIds: seq<int>) returns (r: Result<map<int, int>>)
    ensures |productIds| == 0 ==> r == Ok(map[])
    ensures |productIds| > 0 && PrepTimes in db.failing ==> r == Err(ErrQuery)
    ensures |productIds| > 0 && PrepTimes !in db.failing ==> r == Ok(RowsToMap(PrepTimeRows(db.products, restaurantId, productIds)))
  {
    if |productIds| == 0 {
      return Ok(map[]);
    }
    var placeholders, args := BuildInList(restaurantId, productIds);
    if PrepTimes in db.failing {
      return Err(ErrQuery);
    }
    assert args[1..] == IntArgs(productIds);
    IntsOfIntArgs(productIds);
    var rows := PrepTimeRows(db.products, args[0].i, IntsOf(args[1..]));
    var result: map<int, int> := map[];
    for i := 0 to |rows|
      invariant result == RowsToMap(rows[..i])
    {
      assert rows[..i + 1][..i] == rows[..i];
      result := result[rows[i].0 := rows[i].1];
    }
    assert rows[..|rows|] == rows;
    r := Ok(result);
  }

  // ---------------------------------------------------------------------------
  // Settings and single orders.
  // ---------------------------------------------------------------------------

  function FindSetting(settings: seq<Setting>, restaurantId: int, key: string): (r: Option<Setting>)
    ensures r.Some? ==> r.value in settings && r.value.restaurantId == restaurantId && r.value.key == key
    ensures r.None? ==> forall s :: s in settings ==> !(s.restaurantId == restaurantId && s.key == key)
  {
    if |settings| == 0 then None
    else if settings[0].restaurantId == restaurantId && settings[0].key == key then Some(settings[0])
    else FindSetting(settings[1..], restaurantId, key)
  }

  /** The restaurant's setting under `key`; "no rows" when it has none. */
  function GetSettingByKey(db: Db, restaurantId: int, key: string): (r: Result<Setting>)
    ensures r.Ok? ==> r.value in db.settings && r.value.restaurantId == restaurantId && r.value.key == key
    ensures r.Err? <==> SettingByKey in db.failing || FindSetting(db.settings, restaurantId, key).None?
  {
    if SettingByKey in db.failing then Err(ErrQuery)
    else match FindSetting(db.settings, restaurantId, key)
      case None => Err(ErrNoRows)
      case Some(st) => Ok(st)
  }

  function FindOrder(orders: seq<Order>, restaurantId: int, id: int): (r: Option<Order>)
    ensures r.Some? ==> r.value in orders && r.value.id == id && r.value.restaurantId == restaurantId
    ensures r.None? ==> forall o :: o in orders ==> !(o.id == id && o.restaurantId == restaurantId)
  {
    if |orders| == 0 then None
    else if orders[0].id == id && orders[0].restaurantId == restaurantId then Some(orders[0])
    else FindOrder(orders[1..], restaurantId, id)
  }

  /** The order with this id in this restaurant; "no rows" for another restaurant's order. */
  function GetOrderByID(db: Db, restaurantId: int, id: int): (r: Result<Order>)
    ensures r.Ok? ==> r.value in db.orders && r.value.id == id && r.value.restaurantId == restaurantId
    ensures r.Err? <==> OrderByID in db.failing || FindOrder(db.orders, restaurantId, id).None?
  {
    if OrderByID in db.failing then Err(ErrQuery)
    else match FindOrder(db.orders, restaurantId, id)
      case None => Err(ErrNoRows)
      case Some(o) => Ok(o)
  }

  // ---------------------------------------------------------------------------
  // Writing orders.
  // ---------------------------------------------------------------------------

  /** The id the next insert receives: an id above every stored one. */
  function NextOrderId(orders: seq<Order>): (n: int)
    ensures forall o :: o in orders ==> o.id < n
  {
    if |orders| == 0 then 1
    else
      var m := NextOrderId(orders[..|orders| - 1]);
      var o := orders[|orders| - 1];
      assert orders == orders[..|orders| - 1] + [o];
      if o.id + 1 > m then o.id + 1 else m
  }

  /** INSERT: the row gets a fresh id and both timestamps are `now`. */
  method Create(db: Db, o: Order, now: Time) returns (r: Result<Order>, db': Db)
    ensures InsertOrder in db.failing ==> r == Err(ErrQuery) && db' == db
    ensures InsertOrder !in db.failing ==>
      r == Ok(o.(id := NextOrderId(db.orders), createdAt := now, updatedAt := now))
      && db' == db.(orders := db.orders + [r.value])
    ensures r.Ok? ==> forall x :: x in db.orders ==> x.id != r.value.id
  {
    if InsertOrder in db.failing {
      return Err(ErrQuery), db;
    }
    var row := o.(id := NextOrderId(db.orders), createdAt := now, updatedAt := now);
    r := Ok(row);
    db' := db.(orders := db.orders + [row]);
  }

  /**
   * The column a one-placeholder SET clause names, written with its bound value. A clause
   * naming no such column, or a value of the wrong kind, is a SQL error (None).
   */
  function Assign(o: Order, clause: string, a: Arg): Option<Order> {
    if clause == "status = ?" && a.AStr? then Some(o.(status := a.s))
    else if clause == "assigned_chef_id = ?" && a.AInt? then Some(o.(assignedChefId := Some(a.i)))
    else if clause == "table_number = ?" && a.AStr? then Some(o.(tableNumber := Some(a.s)))
    else if clause == "customer_mobile = ?" && a.AStr? then Some(o.(customerMobile := a.s))
    else if clause == "customer_name = ?" && a.AStr? then Some(o.(customerName := a.s))
    else if clause == "items = ?" && a.AItems? then Some(o.(items := a.items))
    else if clause == "total = ?" && a.AInt? then Some(o.(total := a.i))
    else if clause == "special_instructions = ?" && a.AStr? then Some(o.(specialInstructions := a.s))
    else if clause == "updated_at = ?" && a.ATime? then Some(o.(updatedAt := a.t))
    else None
  }

  /** The SET list applied left to right, clause `k` taking value `k`. */
  function ApplyAssignments(o: Order, clauses: seq<string>, values: seq<Arg>): Option<Order>
    requires |clauses| == |values|
    decreases |clauses|
  {
    if |clauses| == 0 then Some(o)
    else match Assign(o, clauses[0], values[0])
      case None => None
      case Some(o') => ApplyAssignments(o', clauses[1..], values[1..])
  }

  /** Every row with this id and restaurant id rewritten by the SET list. */
  function UpdateRows(orders: seq<Order>, id: int, restaurantId: int, clauses: seq<string>, values: seq<Arg>): (r: Option<seq<Order>>)
    requires |clauses| == |values|
    ensures r.Some? ==> |r.value| == |orders|
  {
    if |orders| == 0 then Some([])
    else
      match UpdateRows(orders[..|orders| - 1], id, restaurantId, clauses, values)
      case None => None
      case Some(init) =>
        var o := orders[|orders| - 1];
        if o.id == id && o.restaurantId == restaurantId then
          match ApplyAssignments(o, clauses, values)
          case None => None
          case Some(o') => Some(init + [o'])
        else Some(init + [o])
  }

  /** A SET list split in two is applied as its first part, then its second. */
  lemma {:induction false} ApplyAssignmentsConcat(o: Order, c1: seq<string>, v1: seq<Arg>, c2: seq<string>, v2: seq<Arg>)
    requires |c1| == |v1| && |c2| == |v2|
    ensures ApplyAssignments(o, c1 + c2, v1 + v2)
            == (match ApplyAssignments(o, c1, v1)
                case None => None
                case Some(o') => ApplyAssignments(o', c2, v2))
    decreases |c1|
  {
    if |c1| > 0 {
      assert (c1 + c2)[0] == c1[0] && (v1 + v2)[0] == v1[0];
      assert (c1 + c2)[1..] == c1[1..] + c2 && (v1 + v2)[1..] == v1[1..] + v2;
      match Assign(o, c1[0], v1[0])
      case None =>
      case Some(o') => ApplyAssignmentsConcat(o', c1[1..], v1[1..], c2, v2);
    } else {
      assert c1 + c2 == c2 && v1 + v2 == v2;
    }
  }

  /** No SET clause rewrites the id or the restaurant of a row. */
  lemma {:induction false} ApplyKeepsKey(o: Order, clauses: seq<string>, values: seq<Arg>)
    requires |clauses| == |values|
    ensures ApplyAssignments(o, clauses, values).Some? ==>
              ApplyAssignments(o, clauses, values).value.id == o.id
              && ApplyAssignments(o, clauses, values).value.restaurantId == o.restaurantId
    decreases |clauses|
  {
    if |clauses| > 0 {
      match Assign(o, clauses[0], values[0])
      case None =>
      case Some(o') => ApplyKeepsKey(o', clauses[1..], values[1..]);
    }
  }

  lemma {:induction false} FindOrderSnoc(orders: seq<Order>, x: Order, restaurantId: int, id: int)
    ensures FindOrder(orders + [x], restaurantId, id)
            == (if FindOrder(orders, restaurantId, id).Some? then FindOrder(orders, restaurantId, id)
                else if x.id == id && x.restaurantId == restaurantId then Some(x) else None)
    decreases |orders|
  {
    if |orders| > 0 {
      assert (orders + [x])[1..] == orders[1..] + [x];
      FindOrderSnoc(orders[1..], x, restaurantId, id);
    }
  }

  /** The rows the WHERE clause selects. */
  predicate Selected(o: Order, id: int, restaurantId: int) {
    o.id == id && o.restaurantId == restaurantId
  }

  /** Every selected row accepts the SET list. */
  predicate AllAccept(orders: seq<Order>, id: int, restaurantId: int, clauses: seq<string>, values: seq<Arg>)
    requires |clauses| == |values|
  {
    forall o :: o in orders && Selected(o, id, restaurantId) ==> ApplyAssignments(o, clauses, values).Some?
  }

  /** When every selected row accepts the SET list, the UPDATE rewrites exactly the selected rows. */
  lemma {:induction false} UpdateRowsPointwise(orders: seq<Order>, id: int, restaurantId: int, clauses: seq<string>, values: seq<Arg>)
    requires |clauses| == |values| && AllAccept(orders, id, restaurantId, clauses, values)
    ensures UpdateRows(orders, id, restaurantId, clauses, values).Some?
    ensures forall k :: 0 <= k < |orders| ==>
              UpdateRows(orders, id, restaurantId, clauses, values).value[k]
              == (if Selected(orders[k], id, restaurantId) then ApplyAssignments(orders[k], clauses, values).value else orders[k])
    decreases |orders|
  {
    if |orders| > 0 {
      var n := |orders| - 1;
      var init := orders[..n];
      var x := orders[n];
      assert forall o :: o in init ==> o in orders;
      UpdateRowsPointwise(init, id, restaurantId, clauses, values);
      var rows := UpdateRows(init, id, restaurantId, clauses, values).value;
      var u := UpdateRows(orders, id, restaurantId, clauses, values).value;
      assert x in orders;
      assert u == rows + [if Selected(x, id, restaurantId) then ApplyAssignments(x, clauses, values).value else x];
      forall k | 0 <= k < |orders|
        ensures u[k] == (if Selected(orders[k], id, restaurantId) then ApplyAssignments(orders[k], clauses, values).value else orders[k])
      {
        if k < n {
          assert orders[k] == init[k];
        }
      }
    }
  }

  /** When every selected row accepts the SET list, reading the order back gives the rewritten row. */
  lemma {:induction false} UpdateRowsFind(orders: seq<Order>, id: int, restaurantId: int, clauses: seq<string>, values: seq<Arg>)
    requires |clauses| == |values| && AllAccept(orders, id, restaurantId, clauses, values)
    ensures UpdateRows(orders, id, restaurantId, clauses, values).Some?
    ensures FindOrder(UpdateRows(orders, id, restaurantId, clauses, values).value, restaurantId, id)
            == (match FindOrder(orders, restaurantId, id)
                case None => None
                case Some(e) => ApplyAssignments(e, clauses, values))
    decreases |orders|
  {
    UpdateRowsPointwise(orders, id, restaurantId, clauses, values);
    if |orders| > 0 {
      var n := |orders| - 1;
      var init := orders[..n];
      var x := orders[n];
      assert orders == init + [x];
      assert forall o :: o in init ==> o in orders;
      UpdateRowsFind(init, id, restaurantId, clauses, values);
      var rows := UpdateRows(init, id, restaurantId, clauses, values).value;
      FindOrderSnoc(init, x, restaurantId, id);
      if Selected(x, id, restaurantId) {
        assert x in orders;
        var x' := ApplyAssignments(x, clauses, values).value;
        ApplyKeepsKey(x, clauses, values);
        FindOrderSnoc(rows, x', restaurantId, id);
        assert UpdateRows(orders, id, restaurantId, clauses, values).value == rows + [x'];
      } else {
        FindOrderSnoc(rows, x, restaurantId, id);
        assert UpdateRows(orders, id, restaurantId, clauses, values).value == rows + [x];
      }
    }
  }

  /**
   * When every row the WHERE clause selects accepts the SET list, the UPDATE succeeds,
   * rewrites exactly the selected rows, and reading the order back gives the rewritten
   * version of the row read before.
   */
  lemma UpdateRowsEffect(orders: seq<Order>, id: int, restaurantId: int, clauses: seq<string>, values: seq<Arg>)
    requires |clauses| == |values|
    requires forall o :: o in orders && o.id == id && o.restaurantId == restaurantId ==> ApplyAssignments(o, clauses, values).Some?
    ensures UpdateRows(orders, id, restaurantId, clauses, values).Some?
    ensures forall k :: 0 <= k < |orders| ==>
              UpdateRows(orders, id, restaurantId, clauses, values).value[k]
              == (if orders[k].id == id && orders[k].restaurantId == restaurantId
                  then ApplyAssignments(orders[k], clauses, values).value else orders[k])
    ensures FindOrder(UpdateRows(orders, id, restaurantId, clauses, values).value, restaurantId, id)
            == (match FindOrder(orders, restaurantId, id)
                case None => None
                case Some(e) => ApplyAssignments(e, clauses, values))
  {
    UpdateRowsPointwise(orders, id, restaurantId, clauses, values);
    UpdateRowsFind(orders, id, restaurantId, clauses, values);
  }

  /**
   * `UPDATE orders SET <clauses> WHERE id = ? AND restaurant_id = ?` executed with `bound`:
   * one value per clause, then the id and the restaurant id.
   */
  function ExecUpdate(db: Db, clauses: seq<string>, bound: seq<Arg>): (r: Result<Db>)
    ensures r.Ok? ==> r.value == db.(orders := r.value.orders) && |r.value.orders| == |db.orders|
  {
    if UpdateOrder in db.failing then Err(ErrQuery)
    else if |bound| != |clauses| + 2 || !bound[|clauses|].AInt? || !bound[|clauses| + 1].AInt? then Err(ErrArgCount)
    else match UpdateRows(db.orders, bound[|clauses|].i, bound[|clauses| + 1].i, clauses, bound[..|clauses|])
      case None => Err(ErrBadAssignment)
      case Some(rows) => Ok(db.(orders := rows))
  }

  /**
   * `joinClauses`: the clauses separated by ", ", built by appending to an accumulator.
   * For no clauses it is "" and for one clause it is that clause.
   */
  method JoinClauses(clauses: seq<string>) returns (result: string)
    ensures result == Join(clauses, ", ")
  {
    result := "";
    for i := 0 to |clauses|
      invariant result == Join(clauses[..i], ", ")
    {
      if i > 0 {
        result := result + ", ";
        JoinSnoc(clauses[..i], clauses[i], ", ");
      }
      assert clauses[..i + 1] == clauses[..i] + [clauses[i]];
      result := result + clauses[i];
    }
    assert clauses[..|clauses|] == clauses;
  }

  /**
   * Update: "updated_at = ?" is appended as the last clause and [now, id, restaurantID] as
   * the last arguments; the statement runs, and the row is read back.
   */
  method Update(db: Db, restaurantId: int, id: int, setClauses: seq<string>, args: seq<Arg>, now: Time)
    returns (query: string, bound: seq<Arg>, r: Result<Order>, db': Db)
    ensures query == "UPDATE orders SET " + Join(setClauses + ["updated_at = ?"], ", ") + " WHERE id = ? AND restaurant_id = ?"
    ensures bound == args + [ATime(now), AInt(id), AInt(restaurantId)]
    ensures |setClauses| == |args| ==> |setClauses + ["updated_at = ?"]| + 2 == |bound|
    ensures ExecUpdate(db, setClauses + ["updated_at = ?"], bound).Err? ==>
      db' == db && r == Err(ExecUpdate(db, setClauses + ["updated_at = ?"], bound).msg)
    ensures ExecUpdate(db, setClauses + ["updated_at = ?"], bound).Ok? ==>
      db' == ExecUpdate(db, setClauses + ["updated_at = ?"], bound).value && r == GetOrderByID(db', restaurantId, id)
  {
    var clauses := setClauses + ["updated_at = ?"];
    bound := args + [ATime(now)];
    var joined := JoinClauses(clauses);
    query := "UPDATE orders SET " + joined + " WHERE id = ? AND restaurant_id = ?";
    bound := bound + [AInt(id), AInt(restaurantId)];
    match ExecUpdate(db, clauses, bound)
    case Err(msg) =>
      r, db' := Err(msg), db;
    case Ok(next) =>
      db' := next;
      r := GetOrderByID(db', restaurantId, id);
  }
}
