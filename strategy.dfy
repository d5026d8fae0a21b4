/**
 * Chef auto-assignment: the resolver that reads a restaurant's "chef_assignment_strategy"
 * setting, and the five policies it chooses among. A policy yields `Ok(Some(id))` for a
 * chosen chef, `Ok(None)` for no chef, or an error.
 */
module Strategy {
  import opened Wrappers
  import opened Strings
  import opened Model
  import opened Store
  import opened Redis

  const StrategyManual: string := "manual"
  const StrategyRoundRobin: string := "round_robin"
  const StrategyLeastLoaded: string := "least_loaded"
  const StrategyRandom: string := "random"
  const StrategyLeastRecentlyAssigned: string := "least_recently_assigned"

  /** The settings key the resolver looks up. */
  const StrategySettingKey: string := "chef_assignment_strategy"

  datatype Assigner = Manual | RoundRobin | LeastLoaded | Random | LeastRecentlyAssigned

  /** The setting value naming each policy. */
  function Name(a: Assigner): string {
    match a
    case Manual => StrategyManual
    case RoundRobin => StrategyRoundRobin
    case LeastLoaded => StrategyLeastLoaded
    case Random => StrategyRandom
    case LeastRecentlyAssigned => StrategyLeastRecentlyAssigned
  }

  // ---------------------------------------------------------------------------
  // Resolver.
  // ---------------------------------------------------------------------------

  /**
   * The policy for a settings lookup: a failed lookup gives Manual; otherwise the value is
   * matched exactly against the four automatic policies, and anything else is Manual.
   */
  function FromSetting(setting: Result<Setting>): (a: Assigner)
    ensures setting.Err? ==> a == Manual
    ensures a != Manual ==> setting.Ok? && setting.value.value == Name(a)
  {
    if setting.Err? then Manual
    else
      var v := setting.value.value;
      if v == StrategyRoundRobin then RoundRobin
      else if v == StrategyLeastLoaded then LeastLoaded
      else if v == StrategyRandom then Random
      else if v == StrategyLeastRecentlyAssigned then LeastRecentlyAssigned
      else Manual
  }

  /** Naming a policy in the setting selects it; for "manual" the default branch does. */
  lemma FromSettingName(st: Setting, a: Assigner)
    requires st.value == Name(a)
    ensures FromSetting(Ok(st)) == a
  {
  }

  /** A value naming none of the four automatic policies gives Manual, whatever its case. */
  lemma FromSettingDefault(st: Setting)
    requires forall a :: a != Manual ==> st.value != Name(a)
    ensures FromSetting(Ok(st)) == Manual
  {
    assert st.value != Name(RoundRobin) && st.value != Name(LeastLoaded);
    assert st.value != Name(Random) && st.value != Name(LeastRecentlyAssigned);
  }

  /** Resolve never fails: it always yields one of the five policies. */
  function Resolve(db: Db, restaurantId: int): (a: Assigner)
    ensures GetSettingByKey(db, restaurantId, StrategySettingKey).Err? ==> a == Manual
    ensures a != Manual ==> GetSettingByKey(db, restaurantId, StrategySettingKey).value.value == Name(a)
  {
    FromSetting(GetSettingByKey(db, restaurantId, StrategySettingKey))
  }

  // ---------------------------------------------------------------------------
  // Shared steps.
  // ---------------------------------------------------------------------------

  function ChefsError(msg: string): string {
    "failed to get active chefs: " + msg
  }

  function LoadsError(msg: string): string {
    "failed to get chef loads: " + msg
  }

  /** The ids of the chefs, in order. */
  function IdsOf(chefs: seq<Staff>): (ids: seq<int>)
    ensures |ids| == |chefs| && forall i :: 0 <= i < |chefs| ==> ids[i] == chefs[i].id
  {
    seq(|chefs|, i requires 0 <= i < |chefs| => chefs[i].id)
  }

  /** The outcome every policy shares when the chef list cannot be read or is empty. */
  predicate NoChefsOutcome(db: Db, restaurantId: int, r: Result<Option<int>>) {
    var chefs := GetActiveChefs(db, restaurantId);
    (chefs.Err? ==> r == Err(ChefsError(chefs.msg)))
    && (chefs.Ok? && |chefs.value| == 0 ==> r == Ok(None))
  }

  /** The chef chosen, if any, is one of the restaurant's active chefs. */
  predicate PicksActiveChef(db: Db, restaurantId: int, r: Result<Option<int>>) {
    r.Ok? && r.value.Some? ==>
      GetActiveChefs(db, restaurantId).Ok? && r.value.value in IdsOf(GetActiveChefs(db, restaurantId).value)
  }

  /** A pick from the chef list is the id of an active chef row of the restaurant. */
  lemma PickIsActiveChefRow(db: Db, restaurantId: int, r: Result<Option<int>>)
    requires PicksActiveChef(db, restaurantId, r) && r.Ok? && r.value.Some?
    ensures exists s :: s in db.staff && IsActiveChef(s, restaurantId) && s.id == r.value.value
  {
    var chefs := GetActiveChefs(db, restaurantId).value;
    var k :| 0 <= k < |chefs| && IdsOf(chefs)[k] == r.value.value;
    assert chefs[k] in db.staff && IsActiveChef(chefs[k], restaurantId);
  }

  // ---------------------------------------------------------------------------
  // Manual.
  // ---------------------------------------------------------------------------

  /** Manual assignment picks no chef, never fails, and reads nothing. */
  function ManualAssign(restaurantId: int): (r: Result<Option<int>>)
    ensures r == Ok(None)
  {
    Ok(None)
  }

  // ---------------------------------------------------------------------------
  // Round robin.
  // ---------------------------------------------------------------------------

  /** The per-restaurant counter key "chef_rr:<restaurantID>". */
  function RoundRobinKey(restaurantId: int): string {
    "chef_rr:" + Itoa(restaurantId)
  }

  /** Distinct restaurants have distinct counters. */
  lemma RoundRobinKeysDistinct(a: int, b: int)
    requires a != b
    ensures RoundRobinKey(a) != RoundRobinKey(b)
  {
    if RoundRobinKey(a) == RoundRobinKey(b) {
      PrefixedItoaInjective("chef_rr:", a, b);
    }
  }

  /** Go's `%`: the remainder takes the sign of the dividend. */
  function GoRem(a: int, n: int): (r: int)
    requires n > 0
    ensures -n < r < n
    ensures a >= 0 ==> 0 <= r && r == a % n
  {
    if a >= 0 then a % n else -((-a) % n)
  }

  /**
   * Go's remainder is negative exactly when the dividend is negative and not a multiple of
   * the divisor.
   */
  lemma GoRemNonNegative(a: int, n: int)
    requires n > 0
    ensures GoRem(a, n) >= 0 <==> a >= 0 || a % n == 0
    ensures GoRem(a, n) >= 0 ==> GoRem(a, n) == a % n
  {
    if a < 0 {
      ModNegate(a, n);
    }
  }

  /** A multiple of `n` leaves no remainder. */
  lemma ModOfMultiple(n: int, k: int)
    requires n > 0
    ensures (n * k) % n == 0
  {
    var q := (n * k) / n;
    var r := (n * k) % n;
    assert n * k == n * q + r;
    assert r == n * (k - q);
    if k - q >= 1 {
      assert false;
    } else if k - q <= -1 {
      assert false;
    }
  }

  /** `n` divides `b` exactly when it divides `-b`. */
  lemma ModNegate(b: int, n: int)
    requires n > 0
    ensures b % n == 0 <==> (-b) % n == 0
  {
    if b % n == 0 {
      assert b == n * (b / n);
      assert -b == n * -(b / n);
      ModOfMultiple(n, -(b / n));
    }
    if (-b) % n == 0 {
      assert -b == n * ((-b) / n);
      assert b == n * -((-b) / n);
      ModOfMultiple(n, -((-b) / n));
    }
  }

  /**
   * `(counter - 1) % len(chefs)` as an index, when Go's remainder is not negative (a
   * negative one makes `chefs[index]` panic). The index is then the Euclidean remainder of
   * counter - 1.
   */
  function RoundRobinIndex(counter: int, n: int): (i: int)
    requires n > 0 && GoRem(counter - 1, n) >= 0
    ensures 0 <= i < n && i == (counter - 1) % n
  {
    GoRemNonNegative(counter - 1, n);
    GoRem(counter - 1, n)
  }

  /** An INCR reply that gives RoundRobinPick an index in range for `n` chefs. */
  predicate ReplyInRange(reply: Result<int>, n: int) {
    reply.Ok? && n > 0 ==> GoRem(reply.value - 1, n) >= 0
  }

  /**
   * Round robin does not panic on this key space: with the restaurant's chef list read,
   * the reply INCR would give indexes into it.
   */
  predicate RoundRobinSafe(db: Db, data: map<string, Entry>, restaurantId: int) {
    var chefs := GetActiveChefs(db, restaurantId);
    chefs.Ok? ==> ReplyInRange(IncrStep(data, RoundRobinKey(restaurantId)).reply, |chefs.value|)
  }

  /**
   * The stored counter, when INCR can read it, is not negative: the case of every counter
   * this service writes, since INCR from a missing key starts at 1.
   */
  predicate CounterUsable(data: map<string, Entry>, key: string) {
    key in data && data[key].Text? && RedisInteger(data[key].s).Some? ==> RedisInteger(data[key].s).value >= 0
  }

  lemma IncrReplyPositive(data: map<string, Entry>, key: string)
    requires CounterUsable(data, key)
    ensures IncrStep(data, key).reply.Ok? ==> IncrStep(data, key).reply.value >= 1
  {
  }

  /** A counter that is not negative never makes round robin panic, whatever the chef list. */
  lemma CounterUsableIsSafe(db: Db, data: map<string, Entry>, restaurantId: int)
    requires CounterUsable(data, RoundRobinKey(restaurantId))
    ensures RoundRobinSafe(db, data, restaurantId)
  {
    IncrReplyPositive(data, RoundRobinKey(restaurantId));
  }

  /** A stored "-1" with one chef is served: INCR replies 0 and Go computes -1 % 1 == 0. */
  lemma MinusOneCounterOneChef(data: map<string, Entry>, key: string, chefs: seq<Staff>)
    requires key in data && data[key] == Text("-1") && |chefs| == 1
    ensures IncrStep(data, key).reply == Ok(0)
    ensures ReplyInRange(IncrStep(data, key).reply, |chefs|)
    ensures RoundRobinPick(chefs, IncrStep(data, key).reply) == Ok(Some(chefs[0].id))
  {
    assert Itoa(-1) == "-1" by {
      assert NatToString(1) == "1";
    }
    RedisIntegerItoa(-1);
  }

  /** A stored "-2" with three chefs is the case left out: INCR replies -1, and -2 % 3 is -2 in Go. */
  lemma MinusTwoCounterThreeChefs(data: map<string, Entry>, key: string)
    requires key in data && data[key] == Text("-2")
    ensures IncrStep(data, key).reply == Ok(-1)
    ensures !ReplyInRange(IncrStep(data, key).reply, 3)
  {
    assert Itoa(-2) == "-2" by {
      assert NatToString(2) == "2";
    }
    RedisIntegerItoa(-2);
  }

  /** The pick from the INCR reply: chefs[(counter-1) % n], or the first chef when INCR failed. */
  function RoundRobinPick(chefs: seq<Staff>, reply: Result<int>): (r: Result<Option<int>>)
    requires |chefs| > 0 && ReplyInRange(reply, |chefs|)
    ensures r.Ok? && r.value.Some? && r.value.value in IdsOf(chefs)
  {
    if reply.Err? then Ok(Some(chefs[0].id))
    else Ok(Some(chefs[RoundRobinIndex(reply.value, |chefs|)].id))
  }

  /**
   * RoundRobinStrategy.Assign: the chef list is read first, and only a non-empty list
   * increments the restaurant's counter.
   */
  method RoundRobinAssign(db: Db, redis: Client, restaurantId: int) returns (r: Result<Option<int>>)
    requires RoundRobinSafe(db, redis.data, restaurantId)
    modifies redis
    ensures NoChefsOutcome(db, restaurantId, r)
    ensures (GetActiveChefs(db, restaurantId).Err? || |GetActiveChefs(db, restaurantId).value| == 0)
      ==> redis.data == old(redis.data)
    ensures GetActiveChefs(db, restaurantId).Ok? && |GetActiveChefs(db, restaurantId).value| > 0 ==>
              && IncrStep(old(redis.data), RoundRobinKey(restaurantId)).data == redis.data
              && r == RoundRobinPick(GetActiveChefs(db, restaurantId).value, IncrStep(old(redis.data), RoundRobinKey(restaurantId)).reply)
    ensures PicksActiveChef(db, restaurantId, r)
  {
    var chefs := GetActiveChefs(db, restaurantId);
    if chefs.Err? {
      return Err(ChefsError(chefs.msg));
    }
    if |chefs.value| == 0 {
      return Ok(None);
    }
    var key := RoundRobinKey(restaurantId);
    var counter := redis.Incr(key);
    if counter.Err? {
      return Ok(Some(chefs.value[0].id));
    }
    var index := RoundRobinIndex(counter.value, |chefs.value|);
    r := Ok(Some(chefs.value[index].id));
  }

  /** The key space after `j` INCRs of `key`. */
  function IncrTimes(data: map<string, Entry>, key: string, j: nat): map<string, Entry> {
    if j == 0 then data else IncrStep(IncrTimes(data, key, j - 1), key).data
  }

  /** From a fresh key, the j-th INCR replies j. */
  lemma {:induction false} IncrTimesCounts(data: map<string, Entry>, key: string, j: nat)
    requires key !in data && j < MaxInt64
    ensures IncrStep(IncrTimes(data, key, j), key).reply == Ok(j + 1)
  {
    if j > 0 {
      IncrTimesCounts(data, key, j - 1);
      IncrTwice(IncrTimes(data, key, j - 1), key);
    }
  }

  /**
   * Successive assignments from a fresh counter, with an unchanged chef list, visit the
   * chefs in turn: call j (from 0) picks chefs[j mod n].
   */
  lemma RoundRobinVisitsInTurn(data: map<string, Entry>, key: string, chefs: seq<Staff>, j: nat)
    requires key !in data && j < MaxInt64 && |chefs| > 0
    ensures IncrStep(IncrTimes(data, key, j), key).reply == Ok(j + 1)
    ensures RoundRobinPick(chefs, IncrStep(IncrTimes(data, key, j), key).reply) == Ok(Some(chefs[j % |chefs|].id))
  {
    IncrTimesCounts(data, key, j);
  }

  // ---------------------------------------------------------------------------
  // Least loaded.
  // ---------------------------------------------------------------------------

  /** The load rows as (chef id, count) pairs. */
  function LoadPairs(loads: seq<ChefLoad>): (pairs: seq<(int, int)>)
    ensures |pairs| == |loads| && forall i :: 0 <= i < |loads| ==> pairs[i] == (loads[i].chefId, loads[i].orderCount)
  {
    seq(|loads|, i requires 0 <= i < |loads| => (loads[i].chefId, loads[i].orderCount))
  }

  /** A chef missing from the load map has load 0. */
  function LoadOf(m: map<int, int>, chef: int): int {
    if chef in m then m[chef] else 0
  }

  /** Loads are not negative when no row count is. */
  lemma {:induction false} RowsToMapNonNegative(rows: seq<(int, int)>, k: int)
    requires forall j :: 0 <= j < |rows| ==> rows[j].1 >= 0
    ensures k in RowsToMap(rows) ==> RowsToMap(rows)[k] >= 0
  {
    if |rows| > 0 {
      RowsToMapNonNegative(rows[..|rows| - 1], k);
    }
  }

  /** The first index holding the smallest value: the minimum with first-wins ties. */
  function FirstMinIndex(xs: seq<int>): (k: nat)
    requires |xs| > 0
    ensures k < |xs|
    ensures forall j :: 0 <= j < |xs| ==> xs[k] <= xs[j]
    ensures forall j :: 0 <= j < k ==> xs[j] > xs[k]
  {
    if |xs| == 1 then 0
    else
      var k := FirstMinIndex(xs[..|xs| - 1]);
      assert forall j :: 0 <= j < |xs| - 1 ==> xs[..|xs| - 1][j] == xs[j];
      if xs[|xs| - 1] < xs[k] then |xs| - 1 else k
  }

  /** The load of each chef, in list order. */
  function ChefLoadList(chefs: seq<Staff>, m: map<int, int>): (xs: seq<int>)
    ensures |xs| == |chefs| && forall i :: 0 <= i < |chefs| ==> xs[i] == LoadOf(m, chefs[i].id)
  {
    seq(|chefs|, i requires 0 <= i < |chefs| => LoadOf(m, chefs[i].id))
  }

  /** The least-loaded pick: the first listed chef whose load is no more than any other's. */
  function LeastLoadedPick(chefs: seq<Staff>, loads: seq<ChefLoad>): (id: int)
    requires |chefs| > 0
    ensures id in IdsOf(chefs)
  {
    var k := FirstMinIndex(ChefLoadList(chefs, RowsToMap(LoadPairs(loads))));
    assert IdsOf(chefs)[k] == chefs[k].id;
    chefs[k].id
  }

  /**
   * The pick's load is no more than any listed chef's, and every chef listed before it has
   * a strictly larger load: ties go to the earliest chef.
   */
  lemma LeastLoadedPickMinimal(chefs: seq<Staff>, loads: seq<ChefLoad>)
    requires |chefs| > 0
    ensures var m := RowsToMap(LoadPairs(loads));
            var id := LeastLoadedPick(chefs, loads);
            && (forall j :: 0 <= j < |chefs| ==> LoadOf(m, id) <= LoadOf(m, chefs[j].id))
            && exists k :: 0 <= k < |chefs| && chefs[k].id == id
                           && forall j :: 0 <= j < k ==> LoadOf(m, chefs[j].id) > LoadOf(m, id)
  {
    var m := RowsToMap(LoadPairs(loads));
    var xs := ChefLoadList(chefs, m);
    var k := FirstMinIndex(xs);
    assert LeastLoadedPick(chefs, loads) == chefs[k].id;
    assert forall j :: 0 <= j < |chefs| ==> xs[j] == LoadOf(m, chefs[j].id);
  }

  /** With no load rows at all, least loaded picks the active chef with the lowest id. */
  lemma LeastLoadedIdlePicksLowestId(db: Db, restaurantId: int)
    requires GetActiveChefs(db, restaurantId).Ok? && |GetActiveChefs(db, restaurantId).value| > 0
    ensures forall s :: s in db.staff && IsActiveChef(s, restaurantId) ==>
              LeastLoadedPick(GetActiveChefs(db, restaurantId).value, []) <= s.id
  {
    var chefs := GetActiveChefs(db, restaurantId).value;
    GetActiveChefsExactly(db, restaurantId);
    LeastLoadedPickMinimal(chefs, []);
    var m := RowsToMap(LoadPairs([]));
    assert m == map[];
    assert LeastLoadedPick(chefs, []) == chefs[0].id;
    forall s | s in db.staff && IsActiveChef(s, restaurantId)
      ensures chefs[0].id <= s.id
    {
      var j :| 0 <= j < |chefs| && chefs[j] == s;
    }
  }

  /**
   * LeastLoadedStrategy.Assign: the load rows are folded into a map, then one pass keeps
   * the first chef with the strictly smallest load seen so far (sentinel -1 for "none yet").
   */
  method LeastLoadedAssign(db: Db, restaurantId: int) returns (r: Result<Option<int>>)
    ensures NoChefsOutcome(db, restaurantId, r)
    ensures GetActiveChefs(db, restaurantId).Ok? && |GetActiveChefs(db, restaurantId).value| > 0 ==>
              (GetChefLoads(db, restaurantId).Err? ==> r == Err(LoadsError(GetChefLoads(db, restaurantId).msg)))
              && (GetChefLoads(db, restaurantId).Ok? ==>
                    r == Ok(Some(LeastLoadedPick(GetActiveChefs(db, restaurantId).value, GetChefLoads(db, restaurantId).value))))
    ensures PicksActiveChef(db, restaurantId, r)
  {
    var chefsR := GetActiveChefs(db, restaurantId);
    if chefsR.Err? {
      return Err(ChefsError(chefsR.msg));
    }
    var chefs := chefsR.value;
    if |chefs| == 0 {
      return Ok(None);
    }
    var loadsR := GetChefLoads(db, restaurantId);
    if loadsR.Err? {
      return Err(LoadsError(loadsR.msg));
    }
    var loadMap := FoldLoads(loadsR.value);
    var chefId := ScanLeastLoaded(chefs, loadsR.value, loadMap);
    r := Ok(Some(chefId));
  }

  /** The load rows folded into a chef-to-count map, a later row for a chef overriding an earlier one. */
  method FoldLoads(loads: seq<ChefLoad>) returns (loadMap: map<int, int>)
    ensures loadMap == RowsToMap(LoadPairs(loads))
  {
    var pairs := LoadPairs(loads);
    loadMap := map[];
    for i := 0 to |loads|
      invariant loadMap == RowsToMap(pairs[..i])
    {
      assert pairs[..i + 1][..i] == pairs[..i];
      loadMap := loadMap[loads[i].chefId := loads[i].orderCount];
    }
    assert pairs[..|loads|] == pairs;
  }

  /** The scan over the chefs keeping the first one with the strictly smallest load seen so far. */
  method ScanLeastLoaded(chefs: seq<Staff>, loads: seq<ChefLoad>, loadMap: map<int, int>) returns (chefId: int)
    requires |chefs| > 0 && loadMap == RowsToMap(LoadPairs(loads))
    requires forall j :: 0 <= j < |loads| ==> loads[j].orderCount >= 0
    ensures chefId == LeastLoadedPick(chefs, loads)
  {
    var xs := ChefLoadList(chefs, loadMap);
    forall k | 0 <= k < |chefs|
      ensures xs[k] >= 0
    {
      RowsToMapNonNegative(LoadPairs(loads), chefs[k].id);
    }
    var minLoad := -1;
    chefId := 0;
    for i := 0 to |chefs|
      invariant i == 0 <==> minLoad == -1
      invariant i > 0 ==> minLoad == xs[FirstMinIndex(xs[..i])] && chefId == chefs[FirstMinIndex(xs[..i])].id
    {
      assert xs[..i + 1][..i] == xs[..i];
      var load := LoadOf(loadMap, chefs[i].id);
      if minLoad == -1 || load < minLoad {
        minLoad := load;
        chefId := chefs[i].id;
      }
    }
    assert xs[..|chefs|] == xs;
  }

  // ---------------------------------------------------------------------------
  // Random.
  // ---------------------------------------------------------------------------

  /** rand.Intn: `intn(n)` is the index drawn from [0, n). */
  ghost predicate IsIntn(intn: nat -> nat) {
    forall n: nat :: n > 0 ==> intn(n) < n
  }

  /** RandomStrategy.Assign: with a non-empty list, the chef at the drawn index; never an error. */
  function RandomAssign(db: Db, restaurantId: int, intn: nat -> nat): (r: Result<Option<int>>)
    requires IsIntn(intn)
    ensures NoChefsOutcome(db, restaurantId, r)
    ensures GetActiveChefs(db, restaurantId).Ok? && |GetActiveChefs(db, restaurantId).value| > 0 ==>
              r == Ok(Some(GetActiveChefs(db, restaurantId).value[intn(|GetActiveChefs(db, restaurantId).value|)].id))
    ensures PicksActiveChef(db, restaurantId, r)
  {
    var chefs := GetActiveChefs(db, restaurantId);
    if chefs.Err? then Err(ChefsError(chefs.msg))
    else if |chefs.value| == 0 then Ok(None)
    else
      var index := intn(|chefs.value|);
      assert IdsOf(chefs.value)[index] == chefs.value[index].id;
      Ok(Some(chefs.value[index].id))
  }

  // ---------------------------------------------------------------------------
  // Least recently assigned.
  // ---------------------------------------------------------------------------

  /**
   * LeastRecentlyAssignedStrategy.Assign: the chef ids are copied into an array of the same
   * length, and the store's selection is returned as it is.
   */
  method LeastRecentlyAssignedAssign(db: Db, restaurantId: int) returns (r: Result<Option<int>>)
    ensures NoChefsOutcome(db, restaurantId, r)
    ensures GetActiveChefs(db, restaurantId).Ok? && |GetActiveChefs(db, restaurantId).value| > 0 ==>
              r == SelectLeastRecent(db, restaurantId, IdsOf(GetActiveChefs(db, restaurantId).value))
    ensures PicksActiveChef(db, restaurantId, r)
  {
    var chefsR := GetActiveChefs(db, restaurantId);
    if chefsR.Err? {
      return Err(ChefsError(chefsR.msg));
    }
    var chefs := chefsR.value;
    if |chefs| == 0 {
      return Ok(None);
    }
    var chefIds := new int[|chefs|];
    for i := 0 to |chefs|
      invariant forall j :: 0 <= j < i ==> chefIds[j] == chefs[j].id
    {
      chefIds[i] := chefs[i].id;
    }
    assert chefIds[..] == IdsOf(chefs);
    r := GetLeastRecentlyAssignedChef(db, restaurantId, chefIds[..]);
  }

  // ---------------------------------------------------------------------------
  // Dispatch.
  // ---------------------------------------------------------------------------

  /** What a policy returns and the key space after it. */
  datatype AssignOutcome = AssignOutcome(result: Result<Option<int>>, data: map<string, Entry>)

  /** Round robin's pick and the key space after it: the counter moves only when there is a chef. */
  function RoundRobinOutcome(db: Db, data: map<string, Entry>, restaurantId: int): (o: AssignOutcome)
    requires RoundRobinSafe(db, data, restaurantId)
    ensures o.data == data || o.data == IncrStep(data, RoundRobinKey(restaurantId)).data
    ensures NoChefsOutcome(db, restaurantId, o.result)
    ensures PicksActiveChef(db, restaurantId, o.result)
  {
    var chefs := GetActiveChefs(db, restaurantId);
    if chefs.Err? then AssignOutcome(Err(ChefsError(chefs.msg)), data)
    else if |chefs.value| == 0 then AssignOutcome(Ok(None), data)
    else
      var step := IncrStep(data, RoundRobinKey(restaurantId));
      AssignOutcome(RoundRobinPick(chefs.value, step.reply), step.data)
  }

  /**
   * `assigner.Assign(ctx, restaurantID)` for the resolved policy, with the key space before
   * and after: only round robin writes to it, and only when there is a chef to pick.
   */
  function AssignSpec(a: Assigner, db: Db, data: map<string, Entry>, restaurantId: int, intn: nat -> nat): (o: AssignOutcome)
    requires IsIntn(intn)
    requires a == RoundRobin ==> RoundRobinSafe(db, data, restaurantId)
    ensures a != RoundRobin ==> o.data == data
    ensures a == RoundRobin ==> o.data == data || o.data == IncrStep(data, RoundRobinKey(restaurantId)).data
    ensures a == Manual ==> o.result == Ok(None)
    ensures a != Manual ==> NoChefsOutcome(db, restaurantId, o.result)
    ensures PicksActiveChef(db, restaurantId, o.result)
  {
    var chefs := GetActiveChefs(db, restaurantId);
    match a
    case Manual => AssignOutcome(ManualAssign(restaurantId), data)
    case RoundRobin => RoundRobinOutcome(db, data, restaurantId)
    case LeastLoaded =>
      if chefs.Err? then AssignOutcome(Err(ChefsError(chefs.msg)), data)
      else if |chefs.value| == 0 then AssignOutcome(Ok(None), data)
      else
        var loads := GetChefLoads(db, restaurantId);
        if loads.Err? then AssignOutcome(Err(LoadsError(loads.msg)), data)
        else AssignOutcome(Ok(Some(LeastLoadedPick(chefs.value, loads.value))), data)
    case Random => AssignOutcome(RandomAssign(db, restaurantId, intn), data)
    case LeastRecentlyAssigned =>
      if chefs.Err? then AssignOutcome(Err(ChefsError(chefs.msg)), data)
      else if |chefs.value| == 0 then AssignOutcome(Ok(None), data)
      else AssignOutcome(SelectLeastRecent(db, restaurantId, IdsOf(chefs.value)), data)
  }

  /** Dispatch to the method of the resolved policy. */
  method Assign(a: Assigner, db: Db, redis: Client, restaurantId: int, intn: nat -> nat) returns (r: Result<Option<int>>)
    requires IsIntn(intn)
    requires a == RoundRobin ==> RoundRobinSafe(db, redis.data, restaurantId)
    modifies redis
    ensures AssignSpec(a, db, old(redis.data), restaurantId, intn) == AssignOutcome(r, redis.data)
  {
    match a
    case Manual =>
      r := ManualAssign(restaurantId);
    case RoundRobin =>
      r := RoundRobinAssign(db, redis, restaurantId);
    case LeastLoaded =>
      r := LeastLoadedAssign(db, restaurantId);
    case Random =>
      r := RandomAssign(db, restaurantId, intn);
    case LeastRecentlyAssigned =>
      r := LeastRecentlyAssignedAssign(db, restaurantId);
  }
}
