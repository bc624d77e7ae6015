/**
 * The Ubler drivers (pset5/ubler/ubler.c, ubler_helpers.c): customers paired with meals, any
 * number of driver threads, one lock per customer and one for the request cursors. Either side
 * of a pair is to be picked up once, and then both are completed.
 *
 * A step executes one statement of one driver; reads outside the locks are steps of their own.
 */
module Ubler {
  import opened Common

  // ---------------------------------------------------------------- pairing

  /** Customer c's meal and meal m's customer point at each other. */
  ghost predicate Paired(mealOf: seq<nat>, customerOf: seq<nat>) {
    && |mealOf| == |customerOf|
    && (forall c :: 0 <= c < |mealOf| ==> mealOf[c] < |mealOf| && customerOf[mealOf[c]] == c)
    && (forall m :: 0 <= m < |customerOf| ==> customerOf[m] < |mealOf| && mealOf[customerOf[m]] == m)
  }

  /** swap_meals, preserving validity. */
  method SwapMeals(mealOf: array<nat>, customerOf: array<nat>, m1: nat, m2: nat)
    requires mealOf != customerOf && Paired(mealOf[..], customerOf[..]) && m1 < mealOf.Length && m2 < mealOf.Length
    modifies mealOf, customerOf
    ensures Paired(mealOf[..], customerOf[..])
    ensures customerOf[..] == old(customerOf[..])[m1 := old(customerOf[m2])][m2 := old(customerOf[m1])]
  {
    var c1, c2 := customerOf[m1], customerOf[m2];
    assert mealOf[..][c1] == m1 && mealOf[..][c2] == m2;
    customerOf[m1], customerOf[m2] := c2, c1;
    mealOf[c1] := m2;
    mealOf[c2] := m1;
  }

  function Swap(xs: seq<nat>, i: nat, j: nat): (r: seq<nat>)
    requires i < |xs| && j < |xs|
    ensures |r| == |xs|
  {
    xs[i := xs[j]][j := xs[i]]
  }

  /** The customers of the meals, meal i's first, swapped from meal i - 1 down: each with one at random before it. */
  function Shuffled(customers: seq<nat>, i: nat, rands: seq<nat>): (r: seq<nat>)
    requires i <= |customers| == |rands|
    ensures |r| == |customers| && forall k :: i <= k < |r| ==> r[k] == customers[k]
    decreases i
  {
    if i == 0 then customers
    else
      var j := rands[i - 1] % i;
      Shuffled(Swap(customers, i - 1, j), i - 1, rands)
  }

  function Identity(n: nat): (r: seq<nat>)
    ensures |r| == n && forall i :: 0 <= i < n ==> r[i] == i
  {
    seq(n, i requires 0 <= i => i)
  }

  /** The pairing that init_requests builds: meal i with customer i, then shuffled by the random numbers given. */
  method InitRequests(n: nat, rands: seq<nat>) returns (mealOf: array<nat>, customerOf: array<nat>)
    requires |rands| == n
    ensures fresh(mealOf) && fresh(customerOf) && mealOf.Length == n && Paired(mealOf[..], customerOf[..])
    ensures customerOf[..] == Shuffled(Identity(n), n, rands)
  {
    mealOf, customerOf := new nat[n](i => i), new nat[n](i => i);
    var i := n;
    assert customerOf[..] == Identity(n);
    while i > 0
      invariant mealOf.Length == customerOf.Length == n && i <= n && mealOf != customerOf && fresh(mealOf)
      invariant fresh(customerOf)
      invariant Paired(mealOf[..], customerOf[..])
      invariant Shuffled(customerOf[..], i, rands) == Shuffled(Identity(n), n, rands)
    {
      i := i - 1;
      SwapMeals(mealOf, customerOf, i, rands[i] % (i + 1));
    }
  }

  /** Random numbers as rand() % (i + 1) leaves them. */
  ghost predicate Drawn(rands: seq<nat>, n: nat) { |rands| == n && forall k :: 0 <= k < n ==> rands[k] <= k }

  /** One turn with a number drawn already. */
  lemma ShuffledTurn(customers: seq<nat>, i: nat, rands: seq<nat>)
    requires 0 < i <= |customers| == |rands| && rands[i - 1] < i
    ensures Shuffled(customers, i, rands) == Shuffled(Swap(customers, i - 1, rands[i - 1]), i - 1, rands)
  {
    assert rands[i - 1] % i == rands[i - 1];
  }

  lemma {:induction false} ShuffledLocal(customers: seq<nat>, i: nat, a: seq<nat>, b: seq<nat>)
    requires i <= |customers| == |a| == |b| && forall k :: 0 <= k < i ==> a[k] == b[k]
    ensures Shuffled(customers, i, a) == Shuffled(customers, i, b)
    decreases i
  {
    if i > 0 {
      ShuffledLocal(Swap(customers, i - 1, a[i - 1] % i), i - 1, a, b);
    }
  }

  /** From a pairing that agrees with another one from meal i on, the shuffle can make the other one. */
  lemma {:induction false} ShuffleReaches(meals: seq<nat>, customers: seq<nat>, i: nat, mealOf: seq<nat>,
      customerOf: seq<nat>) returns (rands: seq<nat>)
    requires Paired(meals, customers) && Paired(mealOf, customerOf) && i <= |customers| == |customerOf|
    requires forall k :: i <= k < |customers| ==> customers[k] == customerOf[k]
    ensures Drawn(rands, |customers|) && Shuffled(customers, i, rands) == customerOf
    decreases i
  {
    hide Paired;
    if i == 0 {
      return Zeros(|customers|);
    }
    hide Shuffled;
    var j := PartnerAt(meals, customers, mealOf, customerOf, i - 1);
    var back := SwapPaired(meals, customers, i - 1, j);
    var rest := ShuffleReaches(back, Swap(customers, i - 1, j), i - 1, mealOf, customerOf);
    rands := rest[i - 1 := j];
    ShuffledLocal(Swap(customers, i - 1, j), i - 1, rest, rands);
    ShuffledTurn(customers, i, rands);
  }

  /** Two meals' customers swapped leave a pairing. */
  lemma SwapPaired(meals: seq<nat>, customers: seq<nat>, i: nat, j: nat) returns (back: seq<nat>)
    requires Paired(meals, customers) && i < |customers| && j < |customers|
    ensures Paired(back, Swap(customers, i, j))
  {
    back := meals[customers[j] := i][customers[i] := j];
  }

  /** The customer that meal i is to have belongs to a meal that is not settled yet. */
  lemma PartnerAt(meals: seq<nat>, customers: seq<nat>, mealOf: seq<nat>, customerOf: seq<nat>, i: nat) returns (j: nat)
    requires Paired(meals, customers) && Paired(mealOf, customerOf) && i < |customers| == |customerOf|
    requires forall k :: i < k < |customers| ==> customers[k] == customerOf[k]
    ensures j <= i && customers[j] == customerOf[i]
  {
    j := meals[customerOf[i]];
    assert mealOf[customerOf[i]] == i && mealOf[customerOf[j]] == j;
  }

  /** A pairing has no customer twice. */
  lemma NotTwice(meals: seq<nat>, customers: seq<nat>, j: nat, k: nat)
    requires Paired(meals, customers) && j < |customers| && k < |customers| && customers[j] == customers[k]
    ensures j == k
  {
    assert meals[customers[j]] == j && meals[customers[k]] == k;
  }

  /** Different choices make different pairings. */
  lemma {:induction false} ShuffleDiffers(meals: seq<nat>, customers: seq<nat>, i: nat, a: seq<nat>, b: seq<nat>)
    requires Paired(meals, customers) && i <= |customers| && Drawn(a, |customers|) && Drawn(b, |customers|)
    requires Shuffled(customers, i, a) == Shuffled(customers, i, b)
    ensures forall k :: 0 <= k < i ==> a[k] == b[k]
    decreases i
  {
    hide Paired, Shuffled;
    if i > 0 {
      var j, x := a[i - 1], b[i - 1];
      ShuffledTurn(customers, i, a);
      ShuffledTurn(customers, i, b);
      assert Shuffled(customers, i, a)[i - 1] == customers[j] && Shuffled(customers, i, b)[i - 1] == customers[x];
      NotTwice(meals, customers, j, x);
      var back := SwapPaired(meals, customers, i - 1, j);
      ShuffleDiffers(back, Swap(customers, i - 1, j), i - 1, a, b);
    }
  }

  /** The shuffle is fair: every pairing is made by exactly one outcome of the random choices. */
  lemma EveryPairingOnce(mealOf: seq<nat>, customerOf: seq<nat>) returns (rands: seq<nat>)
    requires Paired(mealOf, customerOf)
    ensures var n := |customerOf|;
      && Drawn(rands, n) && Shuffled(Identity(n), n, rands) == customerOf
      && forall r :: Drawn(r, n) && Shuffled(Identity(n), n, r) == customerOf ==> r == rands
  {
    var n := |customerOf|;
    rands := ShuffleReaches(Identity(n), Identity(n), n, mealOf, customerOf);
    forall r | Drawn(r, n) && Shuffled(Identity(n), n, r) == customerOf ensures r == rands {
      ShuffleDiffers(Identity(n), Identity(n), n, r, rands);
    }
  }

  // ---------------------------------------------------------------- state

  /** A request: the side asked for, and the customer of the pair. */
  datatype Request = Request(isCustomer: bool, c: nat)

  datatype Driver =
    | Ask | Choose | Enter(isCustomer: bool) | Scan(isCustomer: bool)
    | CheckCustomer(r: Request) | CheckMeal(r: Request) | TakeLock(r: Request)
    | TestOwn(r: Request) | TestOther(r: Request) | PickUp(r: Request)
    | UnlockAndGo(r: Request) | DropFirst(r: Request) | DropSecond(r: Request)
    | UnlockOnly(r: Request) | Gone

  datatype Holder = Nobody | Held(i: nat)

  /** struct driver_stats */
  datatype Stats = Stats(customersPicked: nat, mealsPicked: nat, customersDelivered: nat, mealsDelivered: nat)

  /** receive_request_lock, and each customer's lock. */
  datatype Locks = Locks(request: Holder, customer: seq<Holder>)

  /** The cursors of receive_request; customersOver, mealsOver: it has once found no customer, no meal left. */
  datatype Cursors = Cursors(looped: bool, customerPos: nat, mealPos: nat, customersOver: bool, mealsOver: bool)

  /** The tracking counters of customers and of meals. */
  datatype Counters = Counters(cPicked: seq<nat>, cDone: seq<nat>, mPicked: seq<nat>, mDone: seq<nat>)

  datatype World = World(mealOf: seq<nat>, customerOf: seq<nat>, bothKinds: bool,
                         locks: Locks, scan: Cursors, count: Counters, stats: seq<Stats>, drivers: seq<Driver>)
  {
    predicate Shape() {
      && |mealOf| == |customerOf| == |locks.customer|
      && |mealOf| == |count.cPicked| == |count.cDone| == |count.mPicked| == |count.mDone|
      && |stats| == |drivers|
      && (forall c :: 0 <= c < |mealOf| ==> mealOf[c] < |mealOf|)
      && (forall m :: 0 <= m < |customerOf| ==> customerOf[m] < |mealOf|)
      && (forall i :: 0 <= i < |drivers| ==> Requested(drivers[i]).Some? ==> Requested(drivers[i]).value.c < |mealOf|)
    }

    function N(): nat { |mealOf| }
  }

  function Requested(d: Driver): Option<Request> {
    match d
    case CheckCustomer(r) => Some(r) case CheckMeal(r) => Some(r) case TakeLock(r) => Some(r)
    case TestOwn(r) => Some(r) case TestOther(r) => Some(r) case PickUp(r) => Some(r)
    case UnlockAndGo(r) => Some(r) case DropFirst(r) => Some(r) case DropSecond(r) => Some(r)
    case UnlockOnly(r) => Some(r)
    case _ => None
  }

  function Zeros(n: nat): (r: seq<nat>)
    ensures |r| == n && forall i :: 0 <= i < n ==> r[i] == 0
  {
    seq(n, i => 0)
  }

  /** `threads` drivers about to start. */
  function Init(mealOf: seq<nat>, customerOf: seq<nat>, bothKinds: bool, threads: nat): World {
    var n := |mealOf|;
    World(mealOf, customerOf, bothKinds,
          Locks(Nobody, seq(n, i => Nobody)), Cursors(false, 0, 0, false, false),
          Counters(Zeros(n), Zeros(n), Zeros(n), Zeros(n)),
          seq(threads, i => Stats(0, 0, 0, 0)), seq(threads, i => Ask))
  }

  // ---------------------------------------------------------------- steps

  /** Whether driver i can execute its next statement: only locks hold it up. */
  predicate Ready(s: World, i: nat)
    requires s.Shape() && i < |s.drivers|
  {
    match s.drivers[i]
    case Ask => s.locks.request == Nobody
    case TakeLock(r) => s.locks.customer[r.c] == Nobody
    case Gone => false
    case _ => true
  }

  /** The cursor receive_request uses for customers or for meals. */
  function Cursor(s: World, isCustomer: bool): nat { if isCustomer then s.scan.customerPos else s.scan.mealPos }

  function Completed(s: World, isCustomer: bool, k: nat): nat
    requires s.Shape() && k < s.N()
  {
    if isCustomer then s.count.cDone[k] else s.count.mDone[k]
  }

  /** The request for customer k or meal k. */
  function RequestAt(s: World, isCustomer: bool, k: nat): Request
    requires s.Shape() && k < s.N()
  {
    Request(isCustomer, if isCustomer then k else s.customerOf[k])
  }

  /** Times r's own side was picked up, and the other side. */
  function OwnPicked(s: World, r: Request): nat
    requires s.Shape() && r.c < s.N()
  {
    if r.isCustomer then s.count.cPicked[r.c] else s.count.mPicked[s.mealOf[r.c]]
  }

  function OtherPicked(s: World, r: Request): nat
    requires s.Shape() && r.c < s.N()
  {
    OwnPicked(s, Request(!r.isCustomer, r.c))
  }

  /** Where driver i's next statement leads; `coin` is the random choice of receive_request. */
  function Goto(s: World, i: nat, coin: bool): Driver
    requires s.Shape() && i < |s.drivers| && Ready(s, i)
  {
    match s.drivers[i]
    case Ask => Choose
    case Choose => Enter(coin || !s.bothKinds)
    case Enter(isCustomer) => Scan(isCustomer)
    case Scan(isCustomer) =>
      var pos := Cursor(s, isCustomer);
      if pos >= s.N() then Gone
      else if Completed(s, isCustomer, pos) == 0 then CheckCustomer(RequestAt(s, isCustomer, pos))
      else Scan(isCustomer)
    case CheckCustomer(r) => if s.count.cPicked[r.c] != 0 then CheckMeal(r) else TakeLock(r)
    case CheckMeal(r) => if s.count.mPicked[s.mealOf[r.c]] != 0 then Ask else TakeLock(r)
    case TakeLock(r) => TestOwn(r)
    case TestOwn(r) => if OwnPicked(s, r) == 0 then TestOther(r) else UnlockOnly(r)
    case TestOther(r) => if OtherPicked(s, r) == 0 then PickUp(r) else UnlockOnly(r)
    case PickUp(r) => UnlockAndGo(r)
    case UnlockAndGo(r) => DropFirst(r)
    case DropFirst(r) => DropSecond(r)
    case DropSecond(r) => Ask
    case UnlockOnly(r) => Ask
  }

  function MoveCursor(k: Cursors, isCustomer: bool, pos: nat, looped: bool): Cursors {
    if isCustomer then k.(customerPos := pos, looped := looped) else k.(mealPos := pos, looped := looped)
  }

  /** One turn of receive_request's loop; after wrapping, the loop's increment skips index 0. */
  function ScanTurn(s: World, isCustomer: bool): Cursors
    requires s.Shape()
  {
    var pos := Cursor(s, isCustomer);
    if pos >= s.N() then (if isCustomer then s.scan.(customersOver := true) else s.scan.(mealsOver := true))
    else if Completed(s, isCustomer, pos) == 0 then MoveCursor(s.scan, isCustomer, pos + 1, s.scan.looped)
    else if pos == s.N() - 1 && !s.scan.looped then MoveCursor(s.scan, isCustomer, 0 + 1, true)
    else MoveCursor(s.scan, isCustomer, pos + 1, s.scan.looped)
  }

  /** What driver i's next statement does to the cursors, */
  function NextCursors(s: World, i: nat): Cursors
    requires s.Shape() && i < |s.drivers| && Ready(s, i)
  {
    match s.drivers[i]
    case Choose => s.scan.(looped := false)
    case Enter(isCustomer) => if Cursor(s, isCustomer) == s.N() then MoveCursor(s.scan, isCustomer, 0, s.scan.looped)
        else s.scan
    case Scan(isCustomer) => ScanTurn(s, isCustomer)
    case _ => s.scan
  }

  /** to the locks, */
  function NextLocks(s: World, i: nat): Locks
    requires s.Shape() && i < |s.drivers| && Ready(s, i)
  {
    match s.drivers[i]
    case Ask => s.locks.(request := Held(i))
    case Scan(isCustomer) =>
      var pos := Cursor(s, isCustomer);
      if pos >= s.N() || Completed(s, isCustomer, pos) == 0 then s.locks.(request := Nobody) else s.locks
    case TakeLock(r) => s.locks.(customer := s.locks.customer[r.c := Held(i)])
    case UnlockAndGo(r) => s.locks.(customer := s.locks.customer[r.c := Nobody])
    case UnlockOnly(r) => s.locks.(customer := s.locks.customer[r.c := Nobody])
    case _ => s.locks
  }

  /** complete() of the customer's or the meal's counters. */
  function Complete(s: World, customer: bool, c: nat): Counters
    requires s.Shape() && c < s.N()
  {
    if customer then s.count.(cDone := s.count.cDone[c := s.count.cDone[c] + 1])
    else s.count.(mDone := s.count.mDone[s.mealOf[c] := s.count.mDone[s.mealOf[c]] + 1])
  }

  /** to the tracking counters: a pick-up of one side, the completion of both, one after the other, */
  function NextCounters(s: World, i: nat): Counters
    requires s.Shape() && i < |s.drivers| && Ready(s, i)
  {
    match s.drivers[i]
    case PickUp(r) =>
      if r.isCustomer then s.count.(cPicked := s.count.cPicked[r.c := s.count.cPicked[r.c] + 1])
      else s.count.(mPicked := s.count.mPicked[s.mealOf[r.c] := s.count.mPicked[s.mealOf[r.c]] + 1])
    case DropFirst(r) => Complete(s, r.isCustomer, r.c)
    case DropSecond(r) => Complete(s, !r.isCustomer, r.c)
    case _ => s.count
  }

  /** and to its own statistics. */
  function NextStats(s: World, i: nat): Stats
    requires s.Shape() && i < |s.drivers|
  {
    var d := s.stats[i];
    match s.drivers[i]
    case PickUp(r) =>
      if r.isCustomer then d.(customersPicked := d.customersPicked + 1) else d.(mealsPicked := d.mealsPicked + 1)
    case DropFirst(r) =>
      if r.isCustomer then d.(customersDelivered := d.customersDelivered + 1)
      else d.(mealsDelivered := d.mealsDelivered + 1)
    case _ => d
  }

  ghost predicate Step(s: World, t: World, i: nat, coin: bool) {
    && s.Shape() && i < |s.drivers| && Ready(s, i)
    && t == World(s.mealOf, s.customerOf, s.bothKinds, NextLocks(s, i), NextCursors(s, i), NextCounters(s, i),
                  s.stats[i := NextStats(s, i)], s.drivers[i := Goto(s, i, coin)])
  }

  ghost predicate Moves(s: World, t: World) { exists i, coin :: Step(s, t, i, coin) }

  /** s is reached from the start by steps of the drivers, in any order. */
  ghost predicate Trace(first: World, path: seq<World>) {
    |path| > 0 && path[0] == first && forall k :: 0 <= k < |path| - 1 ==> Moves(path[k], path[k + 1])
  }

  ghost predicate Reachable(first: World, s: World) {
    exists path :: Trace(first, path) && path[|path| - 1] == s
  }

  // ---------------------------------------------------------------- record_stats

  datatype UblerStats = UblerStats(
    mealsPicked: nat, customersPicked: nat, mealsIgnored: nat, customersIgnored: nat,
    mealsOverserviced: nat, customersOverserviced: nat,
    driverMealsPicked: nat, driverCustomersPicked: nat, driverMealsDelivered: nat, driverCustomersDelivered: nat)

  function Sum(xs: seq<nat>): nat { if xs == [] then 0 else Sum(xs[..|xs| - 1]) + xs[|xs| - 1] }

  /** How many counters are zero. */
  function Ignored(done: seq<nat>): nat {
    if done == [] then 0 else Ignored(done[..|done| - 1]) + if done[|done| - 1] == 0 then 1 else 0
  }

  /** How many were picked up or completed more than once. */
  function Overserviced(picked: seq<nat>, done: seq<nat>): nat
    requires |picked| == |done|
  {
    if done == [] then 0
    else
      var k := |done| - 1;
      Overserviced(picked[..k], done[..k]) + if picked[k] > 1 || done[k] > 1 then 1 else 0
  }

  lemma PrefixStep(xs: seq<nat>, ys: seq<nat>, k: nat)
    requires k < |xs| == |ys|
    ensures Sum(xs[..k + 1]) == Sum(xs[..k]) + xs[k]
    ensures Ignored(xs[..k + 1]) == Ignored(xs[..k]) + if xs[k] == 0 then 1 else 0
    ensures Overserviced(xs[..k + 1], ys[..k + 1]) == Overserviced(xs[..k], ys[..k]) +
      if xs[k] > 1 || ys[k] > 1 then 1 else 0
  {
    assert xs[..k + 1][..k] == xs[..k] && ys[..k + 1][..k] == ys[..k];
  }

  datatype Field = CustomersPicked | MealsPicked | CustomersDelivered | MealsDelivered

  function Get(d: Stats, f: Field): nat {
    match f
    case CustomersPicked => d.customersPicked
    case MealsPicked => d.mealsPicked
    case CustomersDelivered => d.customersDelivered
    case MealsDelivered => d.mealsDelivered
  }

  /** One field of all drivers' statistics. */
  function Column(stats: seq<Stats>, f: Field): (r: seq<nat>)
    ensures |r| == |stats| && forall i :: 0 <= i < |stats| ==> r[i] == Get(stats[i], f)
  {
    seq(|stats|, i requires 0 <= i < |stats| => Get(stats[i], f))
  }

  method RecordStats(cPicked: seq<nat>, cDone: seq<nat>, mPicked: seq<nat>, mDone: seq<nat>, drivers: seq<Stats>)
    returns (r: UblerStats)
    requires |cPicked| == |cDone| == |mPicked| == |mDone|
    ensures r.mealsPicked == Sum(mPicked) && r.customersPicked == Sum(cPicked)
    ensures r.mealsIgnored == Ignored(mDone) && r.customersIgnored == Ignored(cDone)
    ensures r.mealsOverserviced == Overserviced(mPicked, mDone)
    ensures r.customersOverserviced == Overserviced(cPicked, cDone)
    ensures r.driverMealsPicked == Sum(Column(drivers, MealsPicked))
    ensures r.driverCustomersPicked == Sum(Column(drivers, CustomersPicked))
    ensures r.driverMealsDelivered == Sum(Column(drivers, MealsDelivered))
    ensures r.driverCustomersDelivered == Sum(Column(drivers, CustomersDelivered))
  {
    var n := |cPicked|;
    var mp, cp, mi, ci, mo, co := 0, 0, 0, 0, 0, 0;
    for i := 0 to n
      invariant mp == Sum(mPicked[..i]) && cp == Sum(cPicked[..i])
      invariant mi == Ignored(mDone[..i]) && ci == Ignored(cDone[..i])
      invariant mo == Overserviced(mPicked[..i], mDone[..i]) && co == Overserviced(cPicked[..i], cDone[..i])
    {
      PrefixStep(mPicked, mDone, i);
      PrefixStep(cPicked, cDone, i);
      PrefixStep(mDone, mPicked, i);
      PrefixStep(cDone, cPicked, i);
      mp, cp := mp + mPicked[i], cp + cPicked[i];
      if mDone[i] == 0 {
        mi := mi + 1;
      }
      if cDone[i] == 0 {
        ci := ci + 1;
      }
      if mPicked[i] > 1 || mDone[i] > 1 {
        mo := mo + 1;
      }
      if cPicked[i] > 1 || cDone[i] > 1 {
        co := co + 1;
      }
    }
    assert mPicked[..n] == mPicked && cPicked[..n] == cPicked && mDone[..n] == mDone && cDone[..n] == cDone;
    var a, b, c, d := DriverTotals(drivers);
    r := UblerStats(mp, cp, mi, ci, mo, co, a, b, c, d);
  }

  method DriverTotals(drivers: seq<Stats>) returns (mp: nat, cp: nat, md: nat, cd: nat)
    ensures mp == Sum(Column(drivers, MealsPicked)) && cp == Sum(Column(drivers, CustomersPicked))
    ensures md == Sum(Column(drivers, MealsDelivered)) && cd == Sum(Column(drivers, CustomersDelivered))
  {
    mp, cp, md, cd := 0, 0, 0, 0;
    ghost var mps, cps := Column(drivers, MealsPicked), Column(drivers, CustomersPicked);
    ghost var mds, cds := Column(drivers, MealsDelivered), Column(drivers, CustomersDelivered);
    for i := 0 to |drivers|
      invariant mp == Sum(mps[..i]) && cp == Sum(cps[..i]) && md == Sum(mds[..i]) && cd == Sum(cds[..i])
    {
      PrefixStep(mps, mps, i);
      PrefixStep(cps, cps, i);
      PrefixStep(mds, mds, i);
      PrefixStep(cds, cds, i);
      mp, cp := mp + drivers[i].mealsPicked, cp + drivers[i].customersPicked;
      md, cd := md + drivers[i].mealsDelivered, cd + drivers[i].customersDelivered;
    }
    assert mps[..|drivers|] == mps && cps[..|drivers|] == cps && mds[..|drivers|] == mds && cds[..|drivers|] == cds;
  }
}
