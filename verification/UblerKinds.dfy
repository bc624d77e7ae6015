/**
 * Which side of a pair the Ubler drivers ask for: customers only, unless meals are delivered too,
 * and then either side as the random choices have it (pset5/ubler/ubler_helpers.c:496-557).
 */
module UblerKinds {
  import opened Common
  import opened Ubler
  import opened UblerInvariant
  import opened UblerTheorems
  import opened UblerLiveness

  /** The request for one side that driver d is after, holds, or is being handed. */
  predicate After(d: Driver, isCustomer: bool) {
    && (d.Enter? || d.Scan? ==> d.isCustomer == isCustomer)
    && (Requested(d).Some? ==> Requested(d).value.isCustomer == isCustomer)
  }

  /** No driver is after the other side, and nobody was picked up on the other side. */
  ghost predicate OneSided(s: World, isCustomer: bool) {
    && s.Shape()
    && (forall i :: 0 <= i < |s.drivers| ==> After(s.drivers[i], isCustomer))
    && (isCustomer ==> forall m :: 0 <= m < s.N() ==> s.count.mPicked[m] == 0)
    && (!isCustomer ==> forall c :: 0 <= c < s.N() ==> s.count.cPicked[c] == 0)
  }

  /** A driver is after the side it chose. */
  lemma GotoSide(s: World, i: nat, coin: bool, isCustomer: bool)
    requires s.Shape() && i < |s.drivers| && Ready(s, i) && After(s.drivers[i], isCustomer)
    requires coin || !s.bothKinds <==> isCustomer
    ensures After(Goto(s, i, coin), isCustomer)
  {}

  lemma StepOneSided(s: World, t: World, i: nat, coin: bool, isCustomer: bool)
    requires Static(s) && OneSided(s, isCustomer) && Step(s, t, i, coin)
    requires coin || !s.bothKinds <==> isCustomer
    ensures OneSided(t, isCustomer) && t.bothKinds == s.bothKinds
  {
    hide Goto, NextLocks, NextCursors, NextStats, Paired, After;
    Frame(s, t, i, coin);
    GotoSide(s, i, coin, isCustomer);
    PickedSide(s, i, isCustomer);
  }

  lemma PickedSide(s: World, i: nat, isCustomer: bool)
    requires s.Shape() && i < |s.drivers| && Ready(s, i) && After(s.drivers[i], isCustomer)
    ensures if isCustomer then NextCounters(s, i).mPicked == s.count.mPicked
            else NextCounters(s, i).cPicked == s.count.cPicked
  {}

  // ---------------------------------------------------------------- customers only

  lemma {:induction false} TraceOneSided(first: World, path: seq<World>, k: nat)
    requires Inv(first) && StatsOk(first) && OneSided(first, true) && !first.bothKinds && Trace(first, path)
    requires k < |path|
    ensures OneSided(path[k], true) && !path[k].bothKinds
  {
    hide Inv, StatsOk, Step, OneSided;
    if k > 0 {
      TraceOneSided(first, path, k - 1);
      TraceInv(first, path, k - 1);
      assert path[k] == path[k - 1 + 1];
      var i, coin :| Step(path[k - 1], path[k], i, coin);
      InvStatic(path[k - 1]);
      StepOneSided(path[k - 1], path[k], i, coin, true);
    }
  }

  /**
   * Unless meals are delivered too, no driver ever asks for a meal or has a request for one, and no meal
   * is picked up, whatever the random choices.
   */
  lemma CustomersOnly(mealOf: seq<nat>, customerOf: seq<nat>, threads: nat, s: World)
    requires Paired(mealOf, customerOf) && Reachable(Init(mealOf, customerOf, false, threads), s)
    ensures OneSided(s, true)
  {
    var first := Init(mealOf, customerOf, false, threads);
    StartsOneSided(mealOf, customerOf, false, threads, true);
    hide Inv, StatsOk, OneSided, Init;
    var path :| Trace(first, path) && path[|path| - 1] == s;
    TraceOneSided(first, path, |path| - 1);
  }

  // ---------------------------------------------------------------- one choice all the way

  /** A driver that brings the run closer to its end: one under way, if there is one. */
  lemma BestDriver(s: World) returns (i: nat)
    requires Inv(s) && !AllGone(s)
    ensures i < |s.drivers| && s.Shape() && Ready(s, i) && (Carrying(s) > 0 ==> CarryRank(s.drivers[i]) > 0)
  {
    hide Inv, Sum;
    InvStatic(s);
    if Carrying(s) > 0 {
      SomeoneCarries(s);
      i :| i < |s.drivers| && CarryRank(s.drivers[i]) > 0;
    } else {
      var j: nat :| j < |s.drivers| && !s.drivers[j].Gone?;
      i := ReadyDriver(s, j);
    }
  }

  /** A ready driver's step is possible with either random choice. */
  lemma StepWith(s: World, i: nat, coin: bool) returns (t: World)
    requires s.Shape() && i < |s.drivers| && Ready(s, i)
    ensures Step(s, t, i, coin)
  {
    hide NextLocks, NextCursors, NextCounters, NextStats, Goto;
    t := World(s.mealOf, s.customerOf, s.bothKinds, NextLocks(s, i), NextCursors(s, i), NextCounters(s, i),
      s.stats[i := NextStats(s, i)], s.drivers[i := Goto(s, i, coin)]);
  }

  /** A step of such a driver: something happens, or what is left to do before becomes less. */
  lemma BestStep(s: World, coin: bool) returns (i: nat, t: World)
    requires Inv(s) && !AllGone(s)
    ensures Step(s, t, i, coin) && Static(s) && Static(t)
    ensures Onward(s, t) || (NotBack(s, t) && Carrying(s) == 0 && Sum(IdleRanks(t)) < Sum(IdleRanks(s)))
  {
    hide Inv, Sum, Step, NotBack, Onward;
    InvStatic(s);
    i := BestDriver(s);
    t := StepWith(s, i, coin);
    Frame(s, t, i, coin);
    StepOnward(s, t, i, coin);
    if !Onward(s, t) {
      IdleStep(s, t, i, coin);
    }
  }

  /** From every state of a run with one choice all the way, the run can be completed with it. */
  lemma {:induction false} RunsOut(s: World, isCustomer: bool) returns (path: seq<World>)
    requires Inv(s) && StatsOk(s) && OneSided(s, isCustomer) && s.bothKinds
    ensures Trace(s, path) && AllGone(path[|path| - 1]) && OneSided(path[|path| - 1], isCustomer)
    ensures path[|path| - 1].mealOf == s.mealOf
    decreases 3 * s.N() - Events(s), Carrying(s), Sum(IdleRanks(s))
  {
    hide Inv, StatsOk, OneSided, Step, Events, Sum, AllGone, IdleRank, Carrying;
    InvStatic(s);
    EventsBounded(s);
    if AllGone(s) {
      return [s];
    }
    var i, t := BestStep(s, isCustomer);
    StepInv(s, t, i, isCustomer);
    StepStats(s, t, i, isCustomer);
    StepOneSided(s, t, i, isCustomer, isCustomer);
    Frame(s, t, i, isCustomer);
    EventsBounded(t);
    var rest := RunsOut(t, isCustomer);
    path := [s] + rest;
    assert Moves(s, t);
    forall k | 0 <= k < |path| - 1 ensures Moves(path[k], path[k + 1]) {
      if k > 0 {
        assert Moves(rest[k - 1], rest[k - 1 + 1]);
      }
    }
  }

  /** Everybody was picked up on one side: as customers, or their meals. */
  ghost predicate AllPicked(s: World, isCustomer: bool) {
    s.Shape() && forall c :: 0 <= c < s.N() ==>
      && s.count.cPicked[c] == (if isCustomer then 1 else 0)
      && s.count.mPicked[s.mealOf[c]] == (if isCustomer then 0 else 1)
  }

  /**
   * When meals are delivered too, both kinds of request are real: there is a complete run in which
   * every customer is picked up as a customer, and one in which every customer's meal is.
   */
  lemma BothKindsHappen(mealOf: seq<nat>, customerOf: seq<nat>, threads: nat, isCustomer: bool)
    requires Paired(mealOf, customerOf) && threads >= 1
    ensures exists s ::
      Reachable(Init(mealOf, customerOf, true, threads), s) && AllGone(s) && s.N() == |mealOf| && s.mealOf == mealOf
      && AllPicked(s, isCustomer)
  {
    var first := Init(mealOf, customerOf, true, threads);
    hide Inv, StatsOk, OneSided, AllGone, AllPicked, Paired, Reachable, Init;
    StartsOneSided(mealOf, customerOf, true, threads, isCustomer);
    var path := RunsOut(first, isCustomer);
    var s := path[|path| - 1];
    RunReaches(first, path);
    ReachableInv(mealOf, customerOf, true, threads, s);
    OneSidedPicks(s, isCustomer);
  }

  lemma StartsOneSided(mealOf: seq<nat>, customerOf: seq<nat>, bothKinds: bool, threads: nat, isCustomer: bool)
    requires Paired(mealOf, customerOf)
    ensures var s := Init(mealOf, customerOf, bothKinds, threads);
      && Inv(s) && StatsOk(s) && OneSided(s, isCustomer) && s.bothKinds == bothKinds && s.mealOf == mealOf
  {
    InitInv(mealOf, customerOf, bothKinds, threads);
    InitStats(mealOf, customerOf, bothKinds, threads);
  }

  lemma RunReaches(first: World, path: seq<World>)
    requires Trace(first, path)
    ensures Reachable(first, path[|path| - 1])
  {}

  lemma OneSidedPicks(s: World, isCustomer: bool)
    requires Inv(s) && AllGone(s) && |s.drivers| >= 1 && OneSided(s, isCustomer)
    ensures AllPicked(s, isCustomer)
  {
    hide RequestLockOk, CustomerLockOk, OneCarrier, FirstHandled, OverOk, PairOk, DriverOk;
    forall c | 0 <= c < s.N()
      ensures s.count.cPicked[c] == (if isCustomer then 1 else 0)
      ensures s.count.mPicked[s.mealOf[c]] == (if isCustomer then 0 else 1)
    {
      GoneSettled(s, c);
      assert Picks(s, c) == 1;
    }
  }
}
