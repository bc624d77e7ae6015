/**
 * What the Ubler drivers guarantee: no deadlock, and once all drivers have returned, every pair
 * was picked up once and completed, and the recorded statistics say so.
 */
module UblerTheorems {
  import opened Ubler
  import opened UblerInvariant

  ghost predicate AllGone(s: World) { forall i :: 0 <= i < |s.drivers| ==> s.drivers[i].Gone? }

  // ---------------------------------------------------------------- statistics

  /** A customer, or a meal, that driver d has picked up and not yet counted as delivered. */
  function InHand(d: Driver, customer: bool): nat {
    if (d.UnlockAndGo? || d.DropFirst?) && d.r.isCustomer == customer then 1 else 0
  }

  function AllPicks(s: World): (r: seq<nat>)
    requires s.Shape()
    ensures |r| == s.N() && forall c :: 0 <= c < s.N() ==> r[c] == Picks(s, c)
  {
    seq(s.N(), c requires 0 <= c < s.N() => Picks(s, c))
  }

  /** The drivers' statistics agree with the tracking counters, and these with the pick-ups of pairs. */
  ghost predicate StatsOk(s: World) {
    && s.Shape()
    && Sum(Column(s.stats, CustomersPicked)) == Sum(s.count.cPicked)
    && Sum(Column(s.stats, MealsPicked)) == Sum(s.count.mPicked)
    && Sum(s.count.cPicked) + Sum(s.count.mPicked) == Sum(AllPicks(s))
    && forall i :: 0 <= i < |s.drivers| ==>
         && s.stats[i].customersDelivered + InHand(s.drivers[i], true) == s.stats[i].customersPicked
         && s.stats[i].mealsDelivered + InHand(s.drivers[i], false) == s.stats[i].mealsPicked
  }

  lemma {:induction false} SumUpdate(xs: seq<nat>, i: nat, v: nat)
    requires i < |xs|
    ensures Sum(xs[i := v]) + xs[i] == Sum(xs) + v
    decreases |xs|
  {
    var last := |xs| - 1;
    if i == last {
      assert xs[i := v][..last] == xs[..last];
    } else {
      SumUpdate(xs[..last], i, v);
      assert xs[i := v][..last] == xs[..last][i := v];
    }
  }

  lemma {:induction false} SumConstant(xs: seq<nat>, v: nat)
    requires forall i :: 0 <= i < |xs| ==> xs[i] == v
    ensures Sum(xs) == |xs| * v
    decreases |xs|
  {
    if xs != [] {
      SumConstant(xs[..|xs| - 1], v);
      assert |xs| * v == (|xs| - 1) * v + v;
    }
  }

  lemma InitStats(mealOf: seq<nat>, customerOf: seq<nat>, bothKinds: bool, threads: nat)
    requires Paired(mealOf, customerOf)
    ensures StatsOk(Init(mealOf, customerOf, bothKinds, threads))
  {
    var s := Init(mealOf, customerOf, bothKinds, threads);
    SumConstant(Column(s.stats, CustomersPicked), 0);
    SumConstant(Column(s.stats, MealsPicked), 0);
    SumConstant(s.count.cPicked, 0);
    SumConstant(s.count.mPicked, 0);
    SumConstant(AllPicks(s), 0);
  }

  /** What a step does to driver i's statistics. */
  lemma StatsFrame(s: World, t: World, i: nat, coin: bool)
    requires Static(s) && Step(s, t, i, coin)
    ensures var p := s.drivers[i].PickUp?;
      && t.stats == s.stats[i := t.stats[i]]
      && t.stats[i].customersPicked == s.stats[i].customersPicked + (if p && s.drivers[i].r.isCustomer then 1 else 0)
      && t.stats[i].mealsPicked == s.stats[i].mealsPicked + (if p && !s.drivers[i].r.isCustomer then 1 else 0)
      && (forall b :: (var x := if b then t.stats[i].customersPicked - s.stats[i].customersPicked
                                else t.stats[i].mealsPicked - s.stats[i].mealsPicked;
                       var y := if b then t.stats[i].customersDelivered - s.stats[i].customersDelivered
                                else t.stats[i].mealsDelivered - s.stats[i].mealsDelivered;
                       y + InHand(Goto(s, i, coin), b) == InHand(s.drivers[i], b) + x))
  {
    hide NextCursors, NextLocks, NextCounters;
  }

  lemma CountFrame(s: World, t: World, i: nat, coin: bool)
    requires Static(s) && Step(s, t, i, coin)
    ensures !s.drivers[i].PickUp? ==> t.count.cPicked == s.count.cPicked && t.count.mPicked == s.count.mPicked
    ensures s.drivers[i].PickUp? ==>
      var r := s.drivers[i].r;
      if r.isCustomer then t.count.mPicked == s.count.mPicked
           && t.count.cPicked == s.count.cPicked[r.c := s.count.cPicked[r.c] + 1]
      else t.count.cPicked == s.count.cPicked
           && t.count.mPicked == s.count.mPicked[s.mealOf[r.c] := s.count.mPicked[s.mealOf[r.c]] + 1]
  {
    hide NextCursors, NextLocks, Goto;
  }

  lemma StepStats(s: World, t: World, i: nat, coin: bool)
    requires Static(s) && StatsOk(s) && Step(s, t, i, coin)
    ensures StatsOk(t)
  {
    hide NextCursors, NextLocks, NextCounters, NextStats, Goto, InHand, Paired, Sum;
    Frame(s, t, i, coin);
    StatsFrame(s, t, i, coin);
    CountFrame(s, t, i, coin);
    SumUpdate(Column(s.stats, CustomersPicked), i, t.stats[i].customersPicked);
    SumUpdate(Column(s.stats, MealsPicked), i, t.stats[i].mealsPicked);
    assert Column(t.stats, CustomersPicked) == Column(s.stats, CustomersPicked)[i := t.stats[i].customersPicked];
    assert Column(t.stats, MealsPicked) == Column(s.stats, MealsPicked)[i := t.stats[i].mealsPicked];
    forall c | 0 <= c < s.N()
      ensures Picks(t, c) == Picks(s, c) + if s.drivers[i].PickUp? && s.drivers[i].r.c == c then 1 else 0
    {
      PicksFrame(s, t, i, coin, c);
    }
    hide Picks;
    if s.drivers[i].PickUp? {
      var r := s.drivers[i].r;
      assert AllPicks(t) == AllPicks(s)[r.c := Picks(s, r.c) + 1];
      SumUpdate(AllPicks(s), r.c, Picks(s, r.c) + 1);
      if r.isCustomer {
        SumUpdate(s.count.cPicked, r.c, s.count.cPicked[r.c] + 1);
      } else {
        SumUpdate(s.count.mPicked, s.mealOf[r.c], s.count.mPicked[s.mealOf[r.c]] + 1);
      }
    } else {
      assert AllPicks(t) == AllPicks(s);
    }
  }

  // ---------------------------------------------------------------- reachable states

  lemma {:induction false} TraceInv(first: World, path: seq<World>, k: nat)
    requires Inv(first) && StatsOk(first) && Trace(first, path) && k < |path|
    ensures Inv(path[k]) && StatsOk(path[k]) && |path[k].drivers| == |first.drivers| && path[k].N() == first.N()
  {
    hide Inv, StatsOk, Step;
    if k > 0 {
      TraceInv(first, path, k - 1);
      assert path[k] == path[k - 1 + 1];
      var i, coin :| Step(path[k - 1], path[k], i, coin);
      StepInv(path[k - 1], path[k], i, coin);
      InvStatic(path[k - 1]);
      StepShape(path[k - 1], path[k], i, coin);
      StepStats(path[k - 1], path[k], i, coin);
      Frame(path[k - 1], path[k], i, coin);
    }
  }

  lemma InvStatic(s: World)
    requires Inv(s)
    ensures Static(s)
  {}

  lemma ReachableInv(mealOf: seq<nat>, customerOf: seq<nat>, bothKinds: bool, threads: nat, s: World)
    requires Paired(mealOf, customerOf) && Reachable(Init(mealOf, customerOf, bothKinds, threads), s)
    ensures Inv(s) && StatsOk(s) && |s.drivers| == threads && s.N() == |mealOf|
  {
    var first := Init(mealOf, customerOf, bothKinds, threads);
    InitInv(mealOf, customerOf, bothKinds, threads);
    InitStats(mealOf, customerOf, bothKinds, threads);
    hide Inv, StatsOk;
    var path :| Trace(first, path) && path[|path| - 1] == s;
    TraceInv(first, path, |path| - 1);
  }

  // ---------------------------------------------------------------- theorems

  /**
   * In every reachable state a pair was picked up at most once, customer and meal together, and
   * completed at most once.
   */
  lemma AtMostOnce(mealOf: seq<nat>, customerOf: seq<nat>, bothKinds: bool, threads: nat, s: World, c: nat)
    requires Paired(mealOf, customerOf) && c < |mealOf|
    requires Reachable(Init(mealOf, customerOf, bothKinds, threads), s)
    ensures s.Shape() && s.N() == |mealOf|
    ensures Picks(s, c) <= 1 && s.count.cDone[c] <= Picks(s, c) && MealDone(s, c) <= Picks(s, c)
  {
    ReachableInv(mealOf, customerOf, bothKinds, threads, s);
    assert PairOk(s, c);
  }

  /**
   * Exactly once: when all drivers have returned, each customer and its meal have one pick-up
   * between them, and both are completed once, although a wrapped cursor skips index 0.
   */
  lemma ExactlyOnce(mealOf: seq<nat>, customerOf: seq<nat>, bothKinds: bool, threads: nat, s: World, c: nat)
    requires Paired(mealOf, customerOf) && c < |mealOf| && threads >= 1
    requires Reachable(Init(mealOf, customerOf, bothKinds, threads), s) && AllGone(s)
    ensures s.Shape() && s.N() == |mealOf|
    ensures Picks(s, c) == 1 && s.count.cDone[c] == 1 && MealDone(s, c) == 1
  {
    ReachableInv(mealOf, customerOf, bothKinds, threads, s);
    GoneSettled(s, c);
  }

  lemma GoneSettled(s: World, c: nat)
    requires Inv(s) && AllGone(s) && |s.drivers| >= 1 && c < s.N()
    ensures Picks(s, c) == 1 && s.count.cDone[c] == 1 && MealDone(s, c) == 1
  {
    hide RequestLockOk, CustomerLockOk, OneCarrier, FirstHandled, Picks, MealDone, Paired;
    assert DriverOk(s, s.drivers[0]);
    assert Handled(s, c) && PairOk(s, c);
  }

  /** Until all drivers have returned, one of them can execute a statement. */
  lemma NoDeadlock(mealOf: seq<nat>, customerOf: seq<nat>, bothKinds: bool, threads: nat, s: World)
    requires Paired(mealOf, customerOf)
    requires Reachable(Init(mealOf, customerOf, bothKinds, threads), s) && !AllGone(s)
    ensures exists t :: Moves(s, t)
  {
    hide Inv, StatsOk, Reachable;
    ReachableInv(mealOf, customerOf, bothKinds, threads, s);
    InvStatic(s);
    var i: nat :| i < |s.drivers| && !s.drivers[i].Gone?;
    var j := ReadyDriver(s, i);
    ReadySteps(s, j);
  }

  /** A driver that waits for a lock waits for one that can go on. */
  lemma ReadyDriver(s: World, i: nat) returns (j: nat)
    requires Inv(s) && i < |s.drivers| && !s.drivers[i].Gone?
    ensures j < |s.drivers| && Ready(s, j)
  {
    hide PairOk, DriverOk, OneCarrier, FirstHandled, OverOk, Paired;
    j := i;
    if !Ready(s, i) {
      if s.drivers[i].TakeLock? {
        assert CustomerLockOk(s, s.drivers[i].r.c);
        j := s.locks.customer[s.drivers[i].r.c].i;
      } else {
        j := s.locks.request.i;
      }
    }
  }

  lemma ReadySteps(s: World, j: nat)
    requires s.Shape() && j < |s.drivers| && Ready(s, j)
    ensures exists t :: Moves(s, t)
  {
    hide NextLocks, NextCursors, NextCounters, NextStats, Goto;
    var t := World(s.mealOf, s.customerOf, s.bothKinds, NextLocks(s, j), NextCursors(s, j), NextCounters(s, j),
                   s.stats[j := NextStats(s, j)], s.drivers[j := Goto(s, j, true)]);
    assert Step(s, t, j, true);
    assert Moves(s, t);
  }

  lemma {:induction false} AllServed(picked: seq<nat>, done: seq<nat>)
    requires |picked| == |done| && forall i :: 0 <= i < |done| ==> picked[i] <= 1 && done[i] == 1
    ensures Ignored(done) == 0 && Overserviced(picked, done) == 0
    decreases |done|
  {
    if done != [] {
      AllServed(picked[..|done| - 1], done[..|done| - 1]);
    }
  }

  /**
   * What record_stats records when the drivers have been joined: everything served, nothing twice,
   * and the drivers agree.
   */
  method FinalStats(mealOf: seq<nat>, customerOf: seq<nat>, bothKinds: bool, threads: nat,
      s: World) returns (r: UblerStats)
    requires Paired(mealOf, customerOf) && threads >= 1
    requires Reachable(Init(mealOf, customerOf, bothKinds, threads), s) && AllGone(s)
    ensures r.mealsPicked + r.customersPicked == |mealOf|
    ensures r.mealsIgnored == r.customersIgnored == r.mealsOverserviced == r.customersOverserviced == 0
    ensures r.driverMealsPicked == r.driverMealsDelivered == r.mealsPicked
    ensures r.driverCustomersPicked == r.driverCustomersDelivered == r.customersPicked
  {
    ReachableInv(mealOf, customerOf, bothKinds, threads, s);
    FinalCounters(s);
    hide Inv, StatsOk, Paired, Reachable, Sum, Ignored, Overserviced;
    r := RecordStats(s.count.cPicked, s.count.cDone, s.count.mPicked, s.count.mDone, s.stats);
  }

  lemma FinalCounters(s: World)
    requires Inv(s) && StatsOk(s) && AllGone(s) && |s.drivers| >= 1
    ensures |s.count.cPicked| == |s.count.cDone| == |s.count.mPicked| == |s.count.mDone|
    ensures Sum(s.count.cPicked) + Sum(s.count.mPicked) == s.N()
    ensures Ignored(s.count.cDone) == Ignored(s.count.mDone) == 0
    ensures Overserviced(s.count.cPicked, s.count.cDone) == Overserviced(s.count.mPicked, s.count.mDone) == 0
    ensures Sum(Column(s.stats, CustomersDelivered)) == Sum(Column(s.stats, CustomersPicked)) == Sum(s.count.cPicked)
    ensures Sum(Column(s.stats, MealsDelivered)) == Sum(Column(s.stats, MealsPicked)) == Sum(s.count.mPicked)
  {
    hide RequestLockOk, CustomerLockOk, OneCarrier, FirstHandled, Sum, OverOk, PairOk, DriverOk;
    forall c | 0 <= c < s.N() ensures Picks(s, c) == 1 && s.count.cDone[c] == 1 && s.count.mDone[s.mealOf[c]] == 1 {
      GoneSettled(s, c);
    }
    SumConstant(AllPicks(s), 1);
    forall c | 0 <= c < s.N() ensures s.count.cPicked[c] <= 1 {
      assert Picks(s, c) == 1;
    }
    AllServed(s.count.cPicked, s.count.cDone);
    forall m | 0 <= m < s.N() ensures s.count.mPicked[m] <= 1 && s.count.mDone[m] == 1 {
      assert s.mealOf[s.customerOf[m]] == m && Picks(s, s.customerOf[m]) == 1;
    }
    AllServed(s.count.mPicked, s.count.mDone);
    assert Column(s.stats, CustomersDelivered) == Column(s.stats, CustomersPicked);
    assert Column(s.stats, MealsDelivered) == Column(s.stats, MealsPicked);
  }
}
