/**
 * The order lifecycle: the status state machine, placing an order (customer checks,
 * defaults, best-effort chef assignment, ready-time estimate) and the guarded partial
 * update. The order table is a `Db` value passed in and returned; the cache is the
 * `Redis.Client` the session and round-robin keys live in.
 */
module OrderService {
  import opened Wrappers
  import opened Strings
  import opened Seqs
  import opened Model
  import opened Redis
  import opened Store
  import opened Strategy
  import CustomerService

  // ---------------------------------------------------------------------------
  // Status transitions.
  // ---------------------------------------------------------------------------

  /** The allowed successors of each status. */
  const Transitions: map<string, seq<string>> := map[
    StatusPending := [StatusPreparing, StatusCancelled],
    StatusPreparing := [StatusCompleted, StatusCancelled],
    StatusCompleted := [],
    StatusCancelled := []]

  /** isValidStatusTransition: exactly the four edges of the table are allowed. */
  function IsValidStatusTransition(from: string, to: string): (ok: bool)
    ensures ok <==> (from == StatusPending && (to == StatusPreparing || to == StatusCancelled))
                    || (from == StatusPreparing && (to == StatusCompleted || to == StatusCancelled))
  {
    from in Transitions && to in Transitions[from]
  }

  /** How far along its life a status is; unknown statuses have none. */
  function Stage(status: string): Option<nat> {
    if status == StatusPending then Some(0)
    else if status == StatusPreparing then Some(1)
    else if status == StatusCompleted || status == StatusCancelled then Some(2)
    else None
  }

  /**
   * Every allowed transition moves strictly forward between known statuses, so no status
   * is ever re-entered and the two final statuses have no successor.
   */
  lemma TransitionsMoveForward(from: string, to: string)
    requires IsValidStatusTransition(from, to)
    ensures Stage(from).Some? && Stage(to).Some? && Stage(from).value < Stage(to).value
    ensures from != StatusCompleted && from != StatusCancelled
  {
  }

  // ---------------------------------------------------------------------------
  // Totals.
  // ---------------------------------------------------------------------------

  /** The sum of price × quantity over the items. */
  function ItemsTotal(items: seq<OrderItem>): int {
    if |items| == 0 then 0
    else ItemsTotal(items[..|items| - 1]) + items[|items| - 1].price * items[|items| - 1].quantity
  }

  /** The total of a concatenation is the sum of the totals. */
  lemma {:induction false} ItemsTotalAppend(a: seq<OrderItem>, b: seq<OrderItem>)
    ensures ItemsTotal(a + b) == ItemsTotal(a) + ItemsTotal(b)
    decreases |b|
  {
    if |b| > 0 {
      var b' := b[..|b| - 1];
      assert (a + b)[..|a + b| - 1] == a + b';
      ItemsTotalAppend(a, b');
    } else {
      assert a + b == a;
    }
  }

  /** Items with non-negative prices and quantities never total below zero. */
  lemma {:induction false} ItemsTotalNonNegative(items: seq<OrderItem>)
    requires forall i :: 0 <= i < |items| ==> items[i].price >= 0 && items[i].quantity >= 0
    ensures ItemsTotal(items) >= 0
    decreases |items|
  {
    if |items| > 0 {
      ItemsTotalNonNegative(items[..|items| - 1]);
    }
  }

  /** The running total of Create and Update. */
  method ComputeTotal(items: seq<OrderItem>) returns (total: int)
    ensures total == ItemsTotal(items)
  {
    total := 0;
    for i := 0 to |items|
      invariant total == ItemsTotal(items[..i])
    {
      assert items[..i + 1][..i] == items[..i];
      total := total + items[i].price * items[i].quantity;
    }
    assert items[..|items|] == items;
  }

  // ---------------------------------------------------------------------------
  // Ready-time estimate.
  // ---------------------------------------------------------------------------

  const DefaultPrepTime: int := 5

  function ProductIds(items: seq<OrderItem>): (ids: seq<int>)
    ensures |ids| == |items| && forall i :: 0 <= i < |items| ==> ids[i] == items[i].productId
  {
    seq(|items|, i requires 0 <= i < |items| => items[i].productId)
  }

  /** An item's prep time: the looked-up value when it is positive, else the default. */
  function PrepTimeOf(prepTimes: map<int, int>, productId: int): (t: int)
    ensures t > 0
    ensures productId !in prepTimes ==> t == DefaultPrepTime
    ensures productId in prepTimes && prepTimes[productId] > 0 ==> t == prepTimes[productId]
    ensures productId in prepTimes && prepTimes[productId] <= 0 ==> t == DefaultPrepTime
  {
    if productId in prepTimes && prepTimes[productId] > 0 then prepTimes[productId] else DefaultPrepTime
  }

  /** The largest prep time over the items (0 for none): they are prepared in parallel. */
  function MaxPrepTime(items: seq<OrderItem>, prepTimes: map<int, int>): (t: int)
    ensures |items| == 0 <==> t == 0
    ensures forall i :: 0 <= i < |items| ==> PrepTimeOf(prepTimes, items[i].productId) <= t
    ensures |items| > 0 ==> exists i :: 0 <= i < |items| && t == PrepTimeOf(prepTimes, items[i].productId)
  {
    if |items| == 0 then 0
    else
      var init := items[..|items| - 1];
      var m := MaxPrepTime(init, prepTimes);
      var pt := PrepTimeOf(prepTimes, items[|items| - 1].productId);
      assert forall i :: 0 <= i < |init| ==> init[i] == items[i];
      if pt > m then pt else m
  }

  /** The prep times the product store reports for the order's distinct products. */
  function LookedUpPrepTimes(db: Db, restaurantId: int, items: seq<OrderItem>): map<int, int> {
    var ids := Dedup(ProductIds(items));
    if |ids| == 0 || PrepTimes in db.failing then map[]
    else RowsToMap(PrepTimeRows(db.products, restaurantId, ids))
  }

  /** The assigned chef's open orders; 0 with no chef or when the count cannot be read. */
  function QueueDepth(db: Db, chef: Option<int>): (d: nat)
    ensures chef.None? ==> d == 0
  {
    if chef.None? then 0
    else match GetChefActiveOrderCount(db, chef.value)
      case Err(_) => 0
      case Ok(c) => c
  }

  /**
   * The estimate in minutes: the order's longest prep time, once for the order itself and
   * once for each order already in the chef's queue.
   */
  function EstimatedMinutes(items: seq<OrderItem>, prepTimes: map<int, int>, depth: nat): (mins: int)
    ensures mins > 0
    ensures forall i :: 0 <= i < |items| ==> (1 + depth) * PrepTimeOf(prepTimes, items[i].productId) <= mins
    ensures |items| > 0 ==> exists i :: 0 <= i < |items| && mins == (1 + depth) * PrepTimeOf(prepTimes, items[i].productId)
    ensures |items| == 0 ==> mins == (1 + depth) * DefaultPrepTime
  {
    var m := MaxPrepTime(items, prepTimes);
    var t := if m == 0 then DefaultPrepTime else m;
    Distribute(depth, t);
    assert && (forall i :: 0 <= i < |items| ==> (1 + depth) * PrepTimeOf(prepTimes, items[i].productId) <= (1 + depth) * t)
           && (|items| > 0 ==> exists i :: 0 <= i < |items| && (1 + depth) * t == (1 + depth) * PrepTimeOf(prepTimes, items[i].productId)) by {
      forall i | 0 <= i < |items|
        ensures (1 + depth) * PrepTimeOf(prepTimes, items[i].productId) <= (1 + depth) * t
      {
        MulMonotone(1 + depth, PrepTimeOf(prepTimes, items[i].productId), t);
      }
      if |items| > 0 {
        var i :| 0 <= i < |items| && m == PrepTimeOf(prepTimes, items[i].productId);
        assert (1 + depth) * t == (1 + depth) * PrepTimeOf(prepTimes, items[i].productId);
      }
    }
    t + depth * t
  }

  /** The estimate is the longest prep time (the default for no items) once plus once per queued order. */
  lemma EstimatedMinutesIs(items: seq<OrderItem>, prepTimes: map<int, int>, depth: nat, t: int)
    requires t == (if MaxPrepTime(items, prepTimes) == 0 then DefaultPrepTime else MaxPrepTime(items, prepTimes))
    ensures EstimatedMinutes(items, prepTimes, depth) == t + depth * t
  {
  }

  lemma MulMonotone(k: nat, a: int, b: int)
    requires a <= b
    ensures k * a <= k * b
  {
  }

  lemma Distribute(depth: nat, t: int)
    requires t > 0
    ensures t + depth * t == (1 + depth) * t > 0
  {
  }

  /** `now` advanced by a number of minutes. */
  function MinutesLater(now: Time, minutes: int): Time {
    now + minutes * 60
  }

  /** The ready time, `now` plus the estimate. */
  function EstimatedReadyAt(db: Db, restaurantId: int, items: seq<OrderItem>, chef: Option<int>, now: Time): Time {
    MinutesLater(now, EstimatedMinutes(items, LookedUpPrepTimes(db, restaurantId, items), QueueDepth(db, chef)))
  }

  /** Prep times 10, 20 and 5 with two orders in the chef's queue give an hour. */
  lemma EstimateExample(a: OrderItem, b: OrderItem, c: OrderItem)
    requires a.productId == 1 && b.productId == 2 && c.productId == 3
    ensures EstimatedMinutes([a, b, c], map[1 := 10, 2 := 20, 3 := 5], 2) == 60
  {
    var items := [a, b, c];
    var m := map[1 := 10, 2 := 20, 3 := 5];
    assert items[..2] == [a, b] && [a, b][..1] == [a] && [a][..0] == [];
    assert MaxPrepTime(items, m) == 20;
  }

  /** The first loop of calculateEstimatedReadyAt: each product id once, in first-occurrence order. */
  method CollectProductIds(items: seq<OrderItem>) returns (productIds: seq<int>)
    ensures productIds == Dedup(ProductIds(items))
  {
    var pids := ProductIds(items);
    productIds := [];
    var seen: map<int, bool> := map[];
    for i := 0 to |items|
      invariant productIds == Dedup(pids[..i])
      invariant forall p :: p in seen <==> p in productIds
      invariant forall p :: p in seen ==> seen[p]
    {
      assert pids[..i + 1][..i] == pids[..i];
      var pid := items[i].productId;
      if !(pid in seen && seen[pid]) {
        productIds := productIds + [pid];
        seen := seen[pid := true];
      }
    }
    assert pids[..|items|] == pids;
  }

  /** The second loop of calculateEstimatedReadyAt: the running maximum of the items' prep times. */
  method LongestPrepTime(items: seq<OrderItem>, prepTimes: map<int, int>) returns (maxPrepTime: int)
    ensures maxPrepTime == MaxPrepTime(items, prepTimes)
  {
    maxPrepTime := 0;
    for i := 0 to |items|
      invariant maxPrepTime == MaxPrepTime(items[..i], prepTimes)
    {
      assert items[..i + 1][..i] == items[..i];
      var pt := DefaultPrepTime;
      var pid := items[i].productId;
      if pid in prepTimes && prepTimes[pid] > 0 {
        pt := prepTimes[pid];
      }
      if pt > maxPrepTime {
        maxPrepTime := pt;
      }
    }
    assert items[..|items|] == items;
  }

  /**
   * calculateEstimatedReadyAt: the distinct product ids are looked up in one query (a
   * failure leaves every item at the default), the longest time is found, and the chef's
   * queue depth multiplies it.
   */
  method CalculateEstimatedReadyAt(db: Db, o: Order, now: Time) returns (o': Order)
    ensures o' == o.(estimatedReadyAt := Some(EstimatedReadyAt(db, o.restaurantId, o.items, o.assignedChefId, now)))
  {
    var productIds := CollectProductIds(o.items);
    var lookup := GetPrepTimes(db, o.restaurantId, productIds);
    var prepTimes: map<int, int> := if lookup.Ok? then lookup.value else map[];
    assert prepTimes == LookedUpPrepTimes(db, o.restaurantId, o.items);
    var maxPrepTime := LongestPrepTime(o.items, prepTimes);
    if maxPrepTime == 0 {
      maxPrepTime := DefaultPrepTime;
    }
    var queueDepth := 0;
    if o.assignedChefId.Some? {
      var count := GetChefActiveOrderCount(db, o.assignedChefId.value);
      if count.Ok? {
        queueDepth := count.value;
      }
    }
    assert queueDepth == QueueDepth(db, o.assignedChefId);
    var estimatedMinutes := maxPrepTime + queueDepth * maxPrepTime;
    EstimatedMinutesIs(o.items, prepTimes, queueDepth, maxPrepTime);
    assert estimatedMinutes == EstimatedMinutes(o.items, LookedUpPrepTimes(db, o.restaurantId, o.items), QueueDepth(db, o.assignedChefId));
    o' := o.(estimatedReadyAt := Some(MinutesLater(now, estimatedMinutes)));
  }

  // ---------------------------------------------------------------------------
  // Placing an order.
  // ---------------------------------------------------------------------------

  const CustomerAuthSettingKey: string := "customer_auth_required"

  const ErrNoItems: string := "order must have at least one item"
  const ErrAuthRequired: string := "customer authentication is required: please verify your phone number first"
  const ErrSessionElsewhere: string := "session is not valid for this restaurant"
  const ErrMobileRequired: string := "customer mobile is required"

  /** The restaurant demands verified customers when its setting reads exactly "true". */
  predicate AuthRequired(db: Db, restaurantId: int) {
    var st := GetSettingByKey(db, restaurantId, CustomerAuthSettingKey);
    st.Ok? && st.value.value == "true"
  }

  /** The customer checks of Create: a rejection, or the mobile to store and the session to spend. */
  datatype Intake = Rejected(msg: string) | Accepted(mobile: string, session: Option<string>)

  /**
   * A restaurant that requires verification, or any order carrying a token, needs a token
   * whose session exists and belongs to this restaurant; the session's phone then replaces
   * the mobile. Otherwise a mobile number must be given.
   */
  function CheckCustomer(db: Db, data: map<string, Entry>, restaurantId: int, o: Order): (i: Intake)
    ensures AuthRequired(db, restaurantId) && o.sessionToken == "" ==> i == Rejected(ErrAuthRequired)
    ensures o.sessionToken != "" ==>
              (i.Accepted? <==> CustomerService.GetSession(data, o.sessionToken).Ok?
                                && CustomerService.GetSession(data, o.sessionToken).value.restaurantId == restaurantId)
    ensures i.Accepted? && o.sessionToken != "" ==>
              i.session == Some(o.sessionToken) && i.mobile == CustomerService.GetSession(data, o.sessionToken).value.phoneNumber
    ensures o.sessionToken == "" && !AuthRequired(db, restaurantId) ==>
              i == (if o.customerMobile == "" then Rejected(ErrMobileRequired) else Accepted(o.customerMobile, None))
  {
    if AuthRequired(db, restaurantId) || o.sessionToken != "" then
      if o.sessionToken == "" then Rejected(ErrAuthRequired)
      else match CustomerService.GetSession(data, o.sessionToken)
        case Err(e) => Rejected("invalid or expired session: " + e)
        case Ok(session) =>
          if session.restaurantId != restaurantId then Rejected(ErrSessionElsewhere)
          else Accepted(session.phoneNumber, Some(o.sessionToken))
    else if o.customerMobile == "" then Rejected(ErrMobileRequired)
    else Accepted(o.customerMobile, None)
  }

  /** The key space after the deferred invalidation of a spent session, if there is one. */
  function SpendSession(data: map<string, Entry>, session: Option<string>): map<string, Entry> {
    if session.Some? then data - {CustomerService.SessionKey(session.value)} else data
  }

  lemma SessionAndCounterKeysDiffer(token: string, restaurantId: int)
    ensures CustomerService.SessionKey(token) != RoundRobinKey(restaurantId)
  {
    assert CustomerService.SessionKey(token)[..2] == "cu" && RoundRobinKey(restaurantId)[..2] == "ch";
  }

  /**
   * Create: checks the items and the customer, then fills in the mobile, clears the token,
   * sets the total and restaurant, defaults the status, takes the assigner's chef unless it
   * failed, estimates the ready time and inserts. A session that passed the checks is
   * deleted on the way out whether or not the insert succeeds.
   */
  method Create(db: Db, redis: Client, restaurantId: int, o: Order, now: Time, intn: nat -> nat)
    returns (r: Result<Order>, db': Db)
    requires IsIntn(intn)
    requires (|o.items| > 0 && CheckCustomer(db, redis.data, restaurantId, o).Accepted?
              && Resolve(db, restaurantId) == RoundRobin) ==> RoundRobinSafe(db, redis.data, restaurantId)
    modifies redis
    ensures |o.items| == 0 ==> r == Err(ErrNoItems) && db' == db && redis.data == old(redis.data)
    ensures |o.items| > 0 && CheckCustomer(db, old(redis.data), restaurantId, o).Rejected? ==>
              r == Err(CheckCustomer(db, old(redis.data), restaurantId, o).msg) && db' == db && redis.data == old(redis.data)
    ensures |o.items| > 0 && CheckCustomer(db, old(redis.data), restaurantId, o).Accepted? ==>
              var intake := CheckCustomer(db, old(redis.data), restaurantId, o);
              var picked := AssignSpec(Resolve(db, restaurantId), db, old(redis.data), restaurantId, intn);
              && redis.data == SpendSession(picked.data, intake.session)
              && (InsertOrder in db.failing ==> r == Err(ErrQuery) && db' == db)
              && (InsertOrder !in db.failing ==> r.Ok? && db' == db.(orders := db.orders + [r.value]))
              && (r.Ok? ==>
                    && r.value.id == NextOrderId(db.orders) && r.value.createdAt == now && r.value.updatedAt == now
                    && r.value.items == o.items && r.value.total == ItemsTotal(o.items)
                    && r.value.restaurantId == restaurantId && r.value.sessionToken == ""
                    && r.value.customerMobile == intake.mobile
                    && r.value.status == (if o.status == "" then StatusPending else o.status)
                    && r.value.assignedChefId == (if picked.result.Ok? then picked.result.value else o.assignedChefId)
                    && r.value.estimatedReadyAt == Some(EstimatedReadyAt(db, restaurantId, o.items, r.value.assignedChefId, now))
                    && r.value.tableNumber == o.tableNumber && r.value.customerName == o.customerName
                    && r.value.specialInstructions == o.specialInstructions)
    ensures |o.items| > 0 && CheckCustomer(db, old(redis.data), restaurantId, o).Accepted? && o.sessionToken != "" ==>
              CustomerService.GetSession(redis.data, o.sessionToken).Err?
  {
    if |o.items| == 0 {
      return Err(ErrNoItems), db;
    }
    var intake := CheckCustomer(db, redis.data, restaurantId, o);
    if intake.Rejected? {
      return Err(intake.msg), db;
    }
    ghost var before := redis.data;
    var order := o.(customerMobile := intake.mobile);
    order := order.(sessionToken := "");
    var total := ComputeTotal(order.items);
    order := order.(total := total, restaurantId := restaurantId);
    if order.status == "" {
      order := order.(status := StatusPending);
    }
    var assigner := Resolve(db, restaurantId);
    var chefId := Strategy.Assign(assigner, db, redis, restaurantId, intn);
    if chefId.Ok? {
      order := order.(assignedChefId := chefId.value);
    }
    order := CalculateEstimatedReadyAt(db, order, now);
    r, db' := Store.Create(db, order, now);
    if intake.session.Some? {
      var _ := CustomerService.InvalidateSession(redis, intake.session.value);
    }
    assert redis.data == SpendSession(AssignSpec(assigner, db, before, restaurantId, intn).data, intake.session);
  }

  // ---------------------------------------------------------------------------
  // Partial update.
  // ---------------------------------------------------------------------------

  const ErrChefNotPending: string := "chef can only be assigned when order is in pending state"

  function TransitionError(from: string, to: string): string {
    "invalid status transition from '" + from + "' to '" + to + "'"
  }

  /** A field of the request takes part in the update when it is non-empty or non-nil. */
  predicate HasChanges(req: Order) {
    req.status != "" || req.assignedChefId.Some? || req.tableNumber.Some? || req.customerMobile != ""
    || req.customerName != "" || |req.items| > 0 || req.specialInstructions != ""
  }

  /** The SET clauses a group of request fields contributes, with their bound values. */
  datatype SetPart = SetPart(clauses: seq<string>, args: seq<Arg>)

  /** The request fields in the order Update looks at them: items and total count as one. */
  const FieldCount: nat := 7

  /** Whether field `f` of the request is present: a non-empty string or list, a non-nil pointer. */
  predicate Present(req: Order, f: nat)
    requires f < FieldCount
  {
    if f == 0 then req.status != ""
    else if f == 1 then req.assignedChefId.Some?
    else if f == 2 then req.tableNumber.Some?
    else if f == 3 then req.customerMobile != ""
    else if f == 4 then req.customerName != ""
    else if f == 5 then |req.items| > 0
    else req.specialInstructions != ""
  }

  /** The clauses of a present field `f`: two (items and total) for the items, one otherwise. */
  function Part(req: Order, f: nat): (p: SetPart)
    requires f < FieldCount && Present(req, f)
    ensures |p.clauses| == |p.args| > 0
  {
    if f == 0 then SetPart(["status = ?"], [AStr(req.status)])
    else if f == 1 then SetPart(["assigned_chef_id = ?"], [AInt(req.assignedChefId.value)])
    else if f == 2 then SetPart(["table_number = ?"], [AStr(req.tableNumber.value)])
    else if f == 3 then SetPart(["customer_mobile = ?"], [AStr(req.customerMobile)])
    else if f == 4 then SetPart(["customer_name = ?"], [AStr(req.customerName)])
    else if f == 5 then SetPart(["items = ?", "total = ?"], [AItems(req.items), AInt(ItemsTotal(req.items))])
    else SetPart(["special_instructions = ?"], [AStr(req.specialInstructions)])
  }

  /** The clauses of field `f`, if present, added after those of the fields before it. */
  function AddPart(p: SetPart, req: Order, f: nat): (p': SetPart)
    requires f < FieldCount
    ensures |p.clauses| == |p.args| ==> |p'.clauses| == |p'.args|
  {
    if Present(req, f) then SetPart(p.clauses + Part(req, f).clauses, p.args + Part(req, f).args) else p
  }

  /** The clauses of the first `n` fields, in order. */
  function PartsUpTo(req: Order, n: nat): (p: SetPart)
    requires n <= FieldCount
    ensures |p.clauses| == |p.args|
    ensures |p.clauses| == 0 <==> forall f :: 0 <= f < n ==> !Present(req, f)
  {
    if n == 0 then SetPart([], []) else AddPart(PartsUpTo(req, n - 1), req, n - 1)
  }

  /** A request has changes exactly when one of its seven fields is present. */
  lemma HasChangesIffPresent(req: Order)
    ensures HasChanges(req) <==> exists f :: 0 <= f < FieldCount && Present(req, f)
  {
    if HasChanges(req) {
      if req.status != "" { assert Present(req, 0); }
      else if req.assignedChefId.Some? { assert Present(req, 1); }
      else if req.tableNumber.Some? { assert Present(req, 2); }
      else if req.customerMobile != "" { assert Present(req, 3); }
      else if req.customerName != "" { assert Present(req, 4); }
      else if |req.items| > 0 { assert Present(req, 5); }
      else { assert Present(req, 6); }
    }
  }

  /** The SET clauses of the update, one per present field. */
  function SetClausesOf(req: Order): (clauses: seq<string>)
    ensures |clauses| == 0 <==> !HasChanges(req)
  {
    HasChangesIffPresent(req);
    PartsUpTo(req, FieldCount).clauses
  }

  /** The values bound to SetClausesOf, one per clause and in the same order. */
  function SetArgsOf(req: Order): (args: seq<Arg>)
    ensures |args| == |SetClausesOf(req)|
  {
    PartsUpTo(req, FieldCount).args
  }

  /** Field `f` of the request written over the stored order, as its clauses do. */
  function MergeField(o: Order, req: Order, f: nat): Order
    requires f < FieldCount
  {
    if !Present(req, f) then o
    else if f == 0 then o.(status := req.status)
    else if f == 1 then o.(assignedChefId := req.assignedChefId)
    else if f == 2 then o.(tableNumber := req.tableNumber)
    else if f == 3 then o.(customerMobile := req.customerMobile)
    else if f == 4 then o.(customerName := req.customerName)
    else if f == 5 then o.(items := req.items, total := ItemsTotal(req.items))
    else o.(specialInstructions := req.specialInstructions)
  }

  function MergeUpTo(o: Order, req: Order, n: nat): Order
    requires n <= FieldCount
  {
    if n == 0 then o else MergeField(MergeUpTo(o, req, n - 1), req, n - 1)
  }

  /** The stored order with every present field of the request taken over, and the total recomputed. */
  function MergeUpdate(existing: Order, req: Order): Order {
    existing.(
      status := if req.status != "" then req.status else existing.status,
      assignedChefId := if req.assignedChefId.Some? then req.assignedChefId else existing.assignedChefId,
      tableNumber := if req.tableNumber.Some? then req.tableNumber else existing.tableNumber,
      customerMobile := if req.customerMobile != "" then req.customerMobile else existing.customerMobile,
      customerName := if req.customerName != "" then req.customerName else existing.customerName,
      items := if |req.items| > 0 then req.items else existing.items,
      total := if |req.items| > 0 then ItemsTotal(req.items) else existing.total,
      specialInstructions := if req.specialInstructions != "" then req.specialInstructions else existing.specialInstructions)
  }

  lemma ApplyPart(o: Order, req: Order, f: nat)
    requires f < FieldCount && Present(req, f)
    ensures ApplyAssignments(o, Part(req, f).clauses, Part(req, f).args) == Some(MergeField(o, req, f))
  {
    if f == 5 && |req.items| > 0 {
      var o' := o.(items := req.items);
      assert ["items = ?", "total = ?"][1..] == ["total = ?"];
      assert [AItems(req.items), AInt(ItemsTotal(req.items))][1..] == [AInt(ItemsTotal(req.items))];
      assert ApplyAssignments(o', ["total = ?"], [AInt(ItemsTotal(req.items))]) == Some(o'.(total := ItemsTotal(req.items)));
    }
  }

  /** Adding field `f`'s clauses after those of an earlier part applies field `f` after them. */
  lemma ApplyAddPart(o: Order, p: SetPart, m: Order, req: Order, f: nat)
    requires f < FieldCount && |p.clauses| == |p.args|
    requires ApplyAssignments(o, p.clauses, p.args) == Some(m)
    ensures ApplyAssignments(o, AddPart(p, req, f).clauses, AddPart(p, req, f).args) == Some(MergeField(m, req, f))
  {
    if Present(req, f) {
      var q := Part(req, f);
      ApplyAssignmentsConcat(o, p.clauses, p.args, q.clauses, q.args);
      ApplyPart(m, req, f);
    }
  }

  /** The clauses of the first `n` fields, run through the store's SET semantics, merge those fields. */
  lemma {:induction false} ApplyPartsUpTo(o: Order, req: Order, n: nat)
    requires n <= FieldCount
    ensures ApplyAssignments(o, PartsUpTo(req, n).clauses, PartsUpTo(req, n).args) == Some(MergeUpTo(o, req, n))
  {
    if n > 0 {
      ApplyPartsUpTo(o, req, n - 1);
      ApplyAddPart(o, PartsUpTo(req, n - 1), MergeUpTo(o, req, n - 1), req, n - 1);
    }
  }

  /** The request with only its first `n` fields kept and the rest left blank. */
  function ReqUpTo(req: Order, n: nat): Order {
    req.(
      status := if n > 0 then req.status else "",
      assignedChefId := if n > 1 then req.assignedChefId else None,
      tableNumber := if n > 2 then req.tableNumber else None,
      customerMobile := if n > 3 then req.customerMobile else "",
      customerName := if n > 4 then req.customerName else "",
      items := if n > 5 then req.items else [],
      specialInstructions := if n > 6 then req.specialInstructions else "")
  }

  /** Merging the first `n` fields one by one is the merge of the request cut to those fields. */
  lemma {:induction false} MergeUpToPrefix(existing: Order, req: Order, n: nat)
    requires n <= FieldCount
    ensures MergeUpTo(existing, req, n) == MergeUpdate(existing, ReqUpTo(req, n))
  {
    if n > 0 {
      MergeUpToPrefix(existing, req, n - 1);
      var m := MergeUpdate(existing, ReqUpTo(req, n - 1));
      if n == 1 { assert MergeField(m, req, 0) == MergeUpdate(existing, ReqUpTo(req, 1)); }
      else if n == 2 { assert MergeField(m, req, 1) == MergeUpdate(existing, ReqUpTo(req, 2)); }
      else if n == 3 { assert MergeField(m, req, 2) == MergeUpdate(existing, ReqUpTo(req, 3)); }
      else if n == 4 { assert MergeField(m, req, 3) == MergeUpdate(existing, ReqUpTo(req, 4)); }
      else if n == 5 { assert MergeField(m, req, 4) == MergeUpdate(existing, ReqUpTo(req, 5)); }
      else if n == 6 { assert MergeField(m, req, 5) == MergeUpdate(existing, ReqUpTo(req, 6)); }
      else { assert MergeField(m, req, 6) == MergeUpdate(existing, ReqUpTo(req, 7)); }
    }
  }

  /** Merging the seven fields one by one is the merge of the whole request. */
  lemma MergeUpToAll(existing: Order, req: Order)
    ensures MergeUpTo(existing, req, FieldCount) == MergeUpdate(existing, req)
  {
    MergeUpToPrefix(existing, req, FieldCount);
    assert ReqUpTo(req, FieldCount) == req;
  }

  /** The clause list Update builds, run through the store's SET semantics, yields MergeUpdate. */
  lemma ApplySetClauses(existing: Order, req: Order, now: Time)
    ensures ApplyAssignments(existing, SetClausesOf(req) + ["updated_at = ?"], SetArgsOf(req) + [ATime(now)])
            == Some(MergeUpdate(existing, req).(updatedAt := now))
  {
    ApplyPartsUpTo(existing, req, FieldCount);
    ApplyAssignmentsConcat(existing, SetClausesOf(req), SetArgsOf(req), ["updated_at = ?"], [ATime(now)]);
    MergeUpToAll(existing, req);
  }

  /** The field-by-field clause builder of Update, totalling the items when they are present. */
  method BuildSetClauses(req: Order) returns (setClauses: seq<string>, args: seq<Arg>)
    ensures setClauses == SetClausesOf(req) && args == SetArgsOf(req)
  {
    setClauses, args := [], [];
    if req.status != "" {
      setClauses, args := setClauses + ["status = ?"], args + [AStr(req.status)];
    }
    assert SetPart(setClauses, args) == PartsUpTo(req, 1);
    if req.assignedChefId.Some? {
      setClauses, args := setClauses + ["assigned_chef_id = ?"], args + [AInt(req.assignedChefId.value)];
    }
    assert SetPart(setClauses, args) == PartsUpTo(req, 2);
    if req.tableNumber.Some? {
      setClauses, args := setClauses + ["table_number = ?"], args + [AStr(req.tableNumber.value)];
    }
    assert SetPart(setClauses, args) == PartsUpTo(req, 3);
    if req.customerMobile != "" {
      setClauses, args := setClauses + ["customer_mobile = ?"], args + [AStr(req.customerMobile)];
    }
    assert SetPart(setClauses, args) == PartsUpTo(req, 4);
    if req.customerName != "" {
      setClauses, args := setClauses + ["customer_name = ?"], args + [AStr(req.customerName)];
    }
    assert SetPart(setClauses, args) == PartsUpTo(req, 5);
    if |req.items| > 0 {
      var total := ComputeTotal(req.items);
      setClauses, args := setClauses + ["items = ?"], args + [AItems(req.items)];
      setClauses, args := setClauses + ["total = ?"], args + [AInt(total)];
      assert setClauses == PartsUpTo(req, 5).clauses + ["items = ?", "total = ?"];
      assert args == PartsUpTo(req, 5).args + [AItems(req.items), AInt(total)];
    }
    assert SetPart(setClauses, args) == PartsUpTo(req, 6);
    if req.specialInstructions != "" {
      setClauses, args := setClauses + ["special_instructions = ?"], args + [AStr(req.specialInstructions)];
    }
    assert SetPart(setClauses, args) == PartsUpTo(req, 7);
  }

  /** The two guards of Update on the stored order, in the order they are checked. */
  function UpdateGuard(existing: Order, req: Order): (g: Outcome)
    ensures req.assignedChefId.Some? && existing.status != StatusPending ==> g == Fail(ErrChefNotPending)
    ensures g.Pass? <==> && (req.assignedChefId.None? || existing.status == StatusPending)
                         && (req.status == "" || req.status == existing.status
                             || IsValidStatusTransition(existing.status, req.status))
    ensures (req.assignedChefId.None? || existing.status == StatusPending) && g.Fail? ==>
              g.msg == TransitionError(existing.status, req.status)
  {
    if req.assignedChefId.Some? && existing.status != StatusPending then Fail(ErrChefNotPending)
    else if req.status != "" && req.status != existing.status && !IsValidStatusTransition(existing.status, req.status)
    then Fail(TransitionError(existing.status, req.status))
    else Pass
  }

  /** Rows of the restaurant's order `id` rewritten by the request at `now`, all other rows kept. */
  predicate RowsMerged(before: seq<Order>, after: seq<Order>, restaurantId: int, id: int, req: Order, now: Time) {
    |after| == |before|
    && forall k :: 0 <= k < |before| ==>
         after[k] == (if before[k].id == id && before[k].restaurantId == restaurantId
                      then MergeUpdate(before[k], req).(updatedAt := now) else before[k])
  }

  /**
   * The statement Update issues for an existing order succeeds unless the store fails, and
   * its re-read returns the merged order.
   */
  lemma UpdateStatementEffect(db: Db, restaurantId: int, id: int, req: Order, now: Time)
    requires GetOrderByID(db, restaurantId, id).Ok? && UpdateOrder !in db.failing
    ensures var e := ExecUpdate(db, SetClausesOf(req) + ["updated_at = ?"], SetArgsOf(req) + [ATime(now), AInt(id), AInt(restaurantId)]);
            && e.Ok? && e.value == db.(orders := e.value.orders)
            && RowsMerged(db.orders, e.value.orders, restaurantId, id, req, now)
            && GetOrderByID(e.value, restaurantId, id) == Ok(MergeUpdate(GetOrderByID(db, restaurantId, id).value, req).(updatedAt := now))
  {
    var clauses := SetClausesOf(req) + ["updated_at = ?"];
    var values := SetArgsOf(req) + [ATime(now)];
    var bound := SetArgsOf(req) + [ATime(now), AInt(id), AInt(restaurantId)];
    assert bound[..|clauses|] == values;
    assert bound[|clauses|] == AInt(id) && bound[|clauses| + 1] == AInt(restaurantId);
    forall o | o in db.orders && o.id == id && o.restaurantId == restaurantId
      ensures ApplyAssignments(o, clauses, values).Some?
    {
      ApplySetClauses(o, req, now);
    }
    UpdateRowsEffect(db.orders, id, restaurantId, clauses, values);
    var rows := UpdateRows(db.orders, id, restaurantId, clauses, values).value;
    forall k | 0 <= k < |db.orders|
      ensures rows[k] == (if db.orders[k].id == id && db.orders[k].restaurantId == restaurantId
                          then MergeUpdate(db.orders[k], req).(updatedAt := now) else db.orders[k])
    {
      ApplySetClauses(db.orders[k], req, now);
    }
    ApplySetClauses(GetOrderByID(db, restaurantId, id).value, req, now);
  }

  /**
   * Update: the order must exist in the restaurant; a chef may be set only on a pending
   * order, whatever status is requested; a changed status must be an allowed transition.
   * With nothing to change the stored order comes back unwritten. Otherwise the matching
   * row, and no other, takes the present fields and the new timestamp.
   */
  method Update(db: Db, restaurantId: int, id: int, req: Order, now: Time) returns (r: Result<Order>, db': Db)
    ensures GetOrderByID(db, restaurantId, id).Err? ==>
              r == Err("order not found: " + GetOrderByID(db, restaurantId, id).msg) && db' == db
    ensures GetOrderByID(db, restaurantId, id).Ok? && UpdateGuard(GetOrderByID(db, restaurantId, id).value, req).Fail? ==>
              r == Err(UpdateGuard(GetOrderByID(db, restaurantId, id).value, req).msg) && db' == db
    ensures GetOrderByID(db, restaurantId, id).Ok? && UpdateGuard(GetOrderByID(db, restaurantId, id).value, req).Pass? && !HasChanges(req) ==>
              r == Ok(GetOrderByID(db, restaurantId, id).value) && db' == db
    ensures GetOrderByID(db, restaurantId, id).Ok? && UpdateGuard(GetOrderByID(db, restaurantId, id).value, req).Pass? && HasChanges(req) ==>
              && (UpdateOrder in db.failing ==> r == Err(ErrQuery) && db' == db)
              && (UpdateOrder !in db.failing ==>
                    && r == Ok(MergeUpdate(GetOrderByID(db, restaurantId, id).value, req).(updatedAt := now))
                    && db' == db.(orders := db'.orders)
                    && RowsMerged(db.orders, db'.orders, restaurantId, id, req, now))
  {
    var found := GetOrderByID(db, restaurantId, id);
    if found.Err? {
      return Err("order not found: " + found.msg), db;
    }
    var existing := found.value;
    if req.assignedChefId.Some? && existing.status != StatusPending {
      return Err(ErrChefNotPending), db;
    }
    if req.status != "" && req.status != existing.status {
      if !IsValidStatusTransition(existing.status, req.status) {
        return Err(TransitionError(existing.status, req.status)), db;
      }
    }
    var setClauses, args := BuildSetClauses(req);
    if |setClauses| == 0 {
      return Ok(existing), db;
    }
    var _, bound, stored, next := Store.Update(db, restaurantId, id, setClauses, args, now);
    assert bound == SetArgsOf(req) + [ATime(now), AInt(id), AInt(restaurantId)];
    if UpdateOrder !in db.failing {
      UpdateStatementEffect(db, restaurantId, id, req, now);
    }
    r, db' := stored, next;
  }
}
