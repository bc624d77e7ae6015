/**
 * The customer or meal at index 0, which the cursors of receive_request skip after wrapping, and the
 * check without a lock that never sends a driver away (pset5/ubler/ubler.c:104-139,
 * pset5/ubler/ubler_helpers.c:496-557).
 */
module UblerFirst {
  import opened Common
  import opened Ubler
  import opened UblerInvariant
  import opened UblerTheorems

  // ---------------------------------------------------------------- the check without the lock

  /**
   * Before a driver takes a customer's lock it looks whether both sides of the pair were picked up. They
   * never were, so the check sends nobody back: every driver that is handed a pair goes on to its lock.
   */
  lemma CheckSendsNobodyBack(mealOf: seq<nat>, customerOf: seq<nat>, bothKinds: bool, threads: nat, s: World,
      t: World, i: nat, coin: bool)
    requires Paired(mealOf, customerOf) && Reachable(Init(mealOf, customerOf, bothKinds, threads), s)
    requires Step(s, t, i, coin) && (s.drivers[i].CheckCustomer? || s.drivers[i].CheckMeal?)
    ensures t.drivers[i] == TakeLock(s.drivers[i].r) ||
            (s.drivers[i].CheckCustomer? && t.drivers[i] == CheckMeal(s.drivers[i].r))
  {
    ReachableInv(mealOf, customerOf, bothKinds, threads, s);
    hide Paired, Reachable, NextLocks, NextCursors, NextStats, NextCounters;
    assert DriverOk(s, s.drivers[i]) && PairOk(s, s.drivers[i].r.c);
  }

  // ---------------------------------------------------------------- what a driver that returns leaves

  /** Customers, or meals, are completed from index 1 on. */
  ghost predicate CompletedFromOne(s: World, isCustomer: bool)
    requires s.Shape()
  {
    forall k :: 1 <= k < s.N() ==> Completed(s, isCustomer, k) > 0
  }

  ghost predicate OverMeans(s: World)
    requires s.Shape()
  {
    (s.scan.customersOver ==> CompletedFromOne(s, true)) && (s.scan.mealsOver ==> CompletedFromOne(s, false))
  }

  lemma StepOverMeans(s: World, t: World, i: nat, coin: bool)
    requires Inv(s) && OverMeans(s) && Step(s, t, i, coin) && Static(t) && t.N() == s.N()
    ensures OverMeans(t)
  {
    hide RequestLockOk, CustomerLockOk, OneCarrier, PairOk, FirstHandled, OverOk, NextLocks, NextCounters, Goto;
    assert DriverOk(s, s.drivers[i]);
    forall isCustomer, k | 1 <= k < s.N() && Completed(s, isCustomer, k) > 0 ensures Completed(t, isCustomer, k) > 0 {
      Monotone(s, t, i, coin, isCustomer, k);
    }
  }

  lemma {:induction false} TraceOverMeans(first: World, path: seq<World>, k: nat)
    requires Inv(first) && StatsOk(first) && OverMeans(first) && Trace(first, path) && k < |path|
    ensures Inv(path[k]) && OverMeans(path[k])
  {
    hide Inv, StatsOk, Step, OverMeans;
    TraceInv(first, path, k);
    InvStatic(path[k]);
    if k > 0 {
      TraceOverMeans(first, path, k - 1);
      TraceInv(first, path, k - 1);
      assert path[k] == path[k - 1 + 1];
      var i, coin :| Step(path[k - 1], path[k], i, coin);
      StepOverMeans(path[k - 1], path[k], i, coin);
    }
  }

  /** When a driver has returned, all customers, or all meals, are completed, that at index 0 perhaps not. */
  lemma ReturnLeavesFirst(mealOf: seq<nat>, customerOf: seq<nat>, bothKinds: bool, threads: nat, s: World, i: nat)
    requires Paired(mealOf, customerOf) && Reachable(Init(mealOf, customerOf, bothKinds, threads), s)
    requires i < |s.drivers| && s.drivers[i].Gone?
    ensures s.Shape() && (CompletedFromOne(s, true) || CompletedFromOne(s, false))
  {
    var first := Init(mealOf, customerOf, bothKinds, threads);
    InitInv(mealOf, customerOf, bothKinds, threads);
    InitStats(mealOf, customerOf, bothKinds, threads);
    var path :| Trace(first, path) && path[|path| - 1] == s;
    hide StatsOk, Paired, Trace, RequestLockOk, CustomerLockOk, OneCarrier, PairOk, FirstHandled, OverOk;
    TraceOverMeans(first, path, |path| - 1);
    assert DriverOk(s, s.drivers[i]);
  }

  // ---------------------------------------------------------------- a run that skips it

  lemma StaysReachable(s: World)
    ensures Reachable(s, s)
  {
    assert Trace(s, [s]) && [s][|[s]| - 1] == s;
  }

  lemma StepsOn(first: World, s: World, t: World, i: nat, coin: bool)
    requires Reachable(first, s) && Step(s, t, i, coin)
    ensures Reachable(first, t)
  {
    hide Step;
    var path :| Trace(first, path) && path[|path| - 1] == s;
    var more := path + [t];
    assert Moves(s, t);
    forall k | 0 <= k < |more| - 1 ensures Moves(more[k], more[k + 1]) {
      assert k < |path| - 1 ==> Moves(path[k], path[k + 1]);
    }
    assert Trace(first, more) && more[|more| - 1] == t;
  }

  function Moved(s: World, i: nat, d: Driver): World
    requires i < |s.drivers|
  {
    s.(drivers := s.drivers[i := d])
  }

  /** A driver asks for a customer and starts to scan. */
  lemma Asks(first: World, s: World, i: nat) returns (t: World)
    requires Reachable(first, s) && Static(s) && i < |s.drivers| && s.drivers[i] == Ask && s.locks.request == Nobody
    ensures Reachable(first, t) && Static(t)
    ensures var pos := if s.scan.customerPos == s.N() then 0 else s.scan.customerPos;
      t == Moved(s, i, Scan(true)).(locks := s.locks.(request := Held(i)),
                                    scan := s.scan.(looped := false, customerPos := pos))
  {
    hide Reachable, Paired;
    var s1 := Moved(s, i, Choose).(locks := s.locks.(request := Held(i)));
    assert Step(s, s1, i, true) by { assert s.stats[i := s.stats[i]] == s.stats; }
    StepsOn(first, s, s1, i, true);
    var s2 := Moved(s1, i, Enter(true)).(scan := s.scan.(looped := false));
    assert Step(s1, s2, i, true) by { assert s.stats[i := s.stats[i]] == s.stats; }
    StepsOn(first, s1, s2, i, true);
    var pos := if s.scan.customerPos == s.N() then 0 else s.scan.customerPos;
    t := Moved(s2, i, Scan(true)).(scan := s2.scan.(customerPos := pos));
    assert Step(s2, t, i, true) by { assert s.stats[i := s.stats[i]] == s.stats; }
    StepsOn(first, s2, t, i, true);
    assert s.drivers[i := Choose][i := Enter(true)][i := Scan(true)] == s.drivers[i := Scan(true)];
  }

  /** A scanning driver is handed the customer at the cursor. */
  lemma Finds(first: World, s: World, i: nat) returns (t: World)
    requires Reachable(first, s) && Static(s) && i < |s.drivers| && s.drivers[i] == Scan(true)
    requires s.scan.customerPos < s.N() && s.count.cDone[s.scan.customerPos] == 0
    ensures Reachable(first, t) && Static(t)
    ensures var pos := s.scan.customerPos;
      t == Moved(s, i, CheckCustomer(Request(true, pos))).(locks := s.locks.(request := Nobody),
                                                           scan := s.scan.(customerPos := pos + 1))
  {
    hide Reachable, Paired;
    var pos := s.scan.customerPos;
    t := Moved(s, i, CheckCustomer(Request(true, pos))).(locks := s.locks.(request := Nobody),
        scan := s.scan.(customerPos := pos + 1));
    assert Step(s, t, i, true) by { assert s.stats[i := s.stats[i]] == s.stats; }
    StepsOn(first, s, t, i, true);
  }

  /** A scan passes a completed customer. */
  lemma Passes(first: World, s: World, i: nat) returns (t: World)
    requires Reachable(first, s) && Static(s) && i < |s.drivers| && s.drivers[i] == Scan(true)
    requires s.scan.customerPos < s.N() && s.count.cDone[s.scan.customerPos] > 0
    ensures Reachable(first, t) && Static(t)
    ensures var pos := s.scan.customerPos; var wraps := pos == s.N() - 1 && !s.scan.looped;
      t == s.(scan := s.scan.(looped := s.scan.looped || wraps, customerPos := if wraps then 1 else pos + 1))
  {
    hide Reachable, Paired;
    var pos := s.scan.customerPos;
    var wraps := pos == s.N() - 1 && !s.scan.looped;
    t := s.(scan := s.scan.(looped := s.scan.looped || wraps, customerPos := if wraps then 1 else pos + 1));
    assert Step(s, t, i, true) by {
      assert s.stats[i := s.stats[i]] == s.stats && s.drivers[i := s.drivers[i]] == s.drivers;
    }
    StepsOn(first, s, t, i, true);
  }

  /** A scan that has come to the end sends its driver home. */
  lemma Returns(first: World, s: World, i: nat) returns (t: World)
    requires Reachable(first, s) && Static(s) && i < |s.drivers| && s.drivers[i] == Scan(true)
    requires s.scan.customerPos >= s.N()
    ensures Reachable(first, t) && Static(t) && t.drivers == s.drivers[i := Gone]
    ensures t.count == s.count && t.mealOf == s.mealOf
  {
    hide Reachable, Paired;
    t := Moved(s, i, Gone).(locks := s.locks.(request := Nobody), scan := s.scan.(customersOver := true));
    assert Step(s, t, i, true) by { assert s.stats[i := s.stats[i]] == s.stats; }
    StepsOn(first, s, t, i, true);
  }

  /** A driver handed an open pair picks its customer up. */
  lemma Takes(first: World, s: World, i: nat, c: nat) returns (t: World)
    requires Reachable(first, s) && Static(s) && i < |s.drivers| && c < s.N() && Picks(s, c) == 0
    requires s.drivers[i] == CheckCustomer(Request(true, c)) && s.locks.customer[c] == Nobody
    ensures Reachable(first, t) && Static(t)
    ensures t == Moved(s, i, PickUp(Request(true, c))).(locks :=
      s.locks.(customer := s.locks.customer[c := Held(i)]))
  {
    hide Reachable, Paired;
    var r := Request(true, c);
    var s1 := Moved(s, i, TakeLock(r));
    assert Step(s, s1, i, true) by { assert s.stats[i := s.stats[i]] == s.stats; }
    StepsOn(first, s, s1, i, true);
    var s2 := Moved(s1, i, TestOwn(r)).(locks := s.locks.(customer := s.locks.customer[c := Held(i)]));
    assert Step(s1, s2, i, true) by { assert s.stats[i := s.stats[i]] == s.stats; }
    StepsOn(first, s1, s2, i, true);
    var s3 := Moved(s2, i, TestOther(r));
    assert Step(s2, s3, i, true) by { assert s.stats[i := s.stats[i]] == s.stats; }
    StepsOn(first, s2, s3, i, true);
    t := Moved(s3, i, PickUp(r));
    assert Step(s3, t, i, true) by { assert s.stats[i := s.stats[i]] == s.stats; }
    StepsOn(first, s3, t, i, true);
    assert t.drivers == s.drivers[i := PickUp(r)];
  }

  /** The same driver and pair, with the customer in hand; what the statistics say is not of interest. */
  ghost predicate Onwards(s: World, t: World, i: nat, d: Driver) {
    && Static(t) && i < |s.drivers| && t.drivers == s.drivers[i := d] && t.scan == s.scan && t.N() == s.N()
    && t.locks.request == s.locks.request && t.mealOf == s.mealOf && t.count.mPicked == s.count.mPicked
  }

  lemma PicksUp(first: World, s: World, i: nat, c: nat) returns (t: World)
    requires Reachable(first, s) && Static(s) && i < |s.drivers| && c < s.N()
    requires s.drivers[i] == PickUp(Request(true, c))
    ensures Reachable(first, t) && Onwards(s, t, i, DropFirst(Request(true, c)))
    ensures t.count.cDone == s.count.cDone && t.count.cPicked == s.count.cPicked[c := s.count.cPicked[c] + 1]
    ensures t.locks.customer == s.locks.customer[c := Nobody]
  {
    hide Reachable, Paired;
    var r := Request(true, c);
    var d := s.stats[i];
    var s1 := Moved(s, i, UnlockAndGo(r)).(count :=
      s.count.(cPicked := s.count.cPicked[c := s.count.cPicked[c] + 1]),
      stats := s.stats[i := d.(customersPicked := d.customersPicked + 1)]);
    assert Step(s, s1, i, true);
    StepsOn(first, s, s1, i, true);
    t := Moved(s1, i, DropFirst(r)).(locks := s.locks.(customer := s.locks.customer[c := Nobody]));
    assert Step(s1, t, i, true) by { assert s1.stats[i := s1.stats[i]] == s1.stats; }
    StepsOn(first, s1, t, i, true);
  }

  lemma Delivers(first: World, s: World, i: nat, c: nat) returns (t: World)
    requires Reachable(first, s) && Static(s) && i < |s.drivers| && c < s.N()
    requires s.drivers[i] == DropFirst(Request(true, c))
    ensures Reachable(first, t) && Onwards(s, t, i, Ask)
    ensures t.count.cPicked == s.count.cPicked && t.count.cDone == s.count.cDone[c := s.count.cDone[c] + 1]
    ensures t.locks.customer == s.locks.customer
  {
    hide Reachable, Paired;
    var r := Request(true, c);
    var d := s.stats[i];
    var s1 := Moved(s, i, DropSecond(r)).(count := Complete(s, true, c),
      stats := s.stats[i := d.(customersDelivered := d.customersDelivered + 1)]);
    assert Step(s, s1, i, true);
    StepsOn(first, s, s1, i, true);
    t := Moved(s1, i, Ask).(count := Complete(s1, false, c));
    assert Step(s1, t, i, true) by { assert s1.stats[i := s1.stats[i]] == s1.stats; }
    StepsOn(first, s1, t, i, true);
  }

  /** Driver 0 has been handed customer 0 and does not move; the customers before pos are completed, the others open. */
  ghost predicate FirstHeld(s: World, pos: nat) {
    && Static(s) && |s.drivers| >= 3 && 1 <= pos <= s.N() && s.scan.customerPos == pos && s.locks.request == Nobody
    && s.drivers[0] == CheckCustomer(Request(true, 0)) && (forall i :: 1 <= i < |s.drivers| ==> s.drivers[i] == Ask)
    && (forall k :: 0 <= k < s.N() ==> s.locks.customer[k] == Nobody)
    && (forall k :: 1 <= k < pos ==> s.count.cDone[k] > 0)
    && forall k :: 0 <= k < s.N() && (k == 0 || pos <= k) ==> Picks(s, k) == 0 && s.count.cDone[k] == 0
  }

  /** Driver 1 serves the next customer. */
  lemma ServesNext(first: World, s: World, pos: nat) returns (t: World)
    requires Reachable(first, s) && FirstHeld(s, pos) && pos < s.N()
    ensures Reachable(first, t) && FirstHeld(t, pos + 1) && t.N() == s.N()
  {
    hide Reachable, Paired;
    var s1 := Asks(first, s, 1);
    var s2 := Finds(first, s1, 1);
    t := Serves(first, s2, 1, pos);
    assert t.drivers == s.drivers;
    StillHeld(s, t, pos);
  }

  /** A driver handed an open pair serves it as a customer's. */
  lemma Serves(first: World, s: World, i: nat, c: nat) returns (t: World)
    requires Reachable(first, s) && Static(s) && i < |s.drivers| && c < s.N() && Picks(s, c) == 0
    requires s.drivers[i] == CheckCustomer(Request(true, c)) && s.locks.customer[c] == Nobody
    ensures Reachable(first, t) && Onwards(s, t, i, Ask) && t.locks == s.locks
    ensures t.count.cPicked == s.count.cPicked[c := s.count.cPicked[c] + 1]
    ensures t.count.cDone == s.count.cDone[c := s.count.cDone[c] + 1]
  {
    hide Reachable, Paired;
    var s1 := Takes(first, s, i, c);
    var s2 := PicksUp(first, s1, i, c);
    t := Delivers(first, s2, i, c);
    assert t.drivers == s.drivers[i := Ask] && t.locks.customer == s.locks.customer;
  }

  lemma StillHeld(s: World, t: World, pos: nat)
    requires FirstHeld(s, pos) && pos < s.N() && Static(t) && t.N() == s.N() && t.mealOf == s.mealOf
    requires t.drivers == s.drivers && t.scan.customerPos == pos + 1 && t.locks.request == Nobody
    requires forall k :: 0 <= k < s.N() ==> t.locks.customer[k] == Nobody
    requires forall k :: 0 <= k < s.N() && k != pos ==>
      t.count.cDone[k] == s.count.cDone[k] && t.count.cPicked[k] == s.count.cPicked[k]
    requires t.count.mPicked == s.count.mPicked && t.count.cDone[pos] > 0
    ensures FirstHeld(t, pos + 1)
  {
    hide Paired;
    forall k | 0 <= k < s.N() && (k == 0 || pos + 1 <= k) ensures Picks(t, k) == 0 && t.count.cDone[k] == 0 {
      assert Picks(s, k) == 0;
    }
  }

  lemma {:induction false} ServesOthers(first: World, s: World, pos: nat) returns (t: World)
    requires Reachable(first, s) && FirstHeld(s, pos)
    ensures Reachable(first, t) && FirstHeld(t, t.N()) && t.N() == s.N()
    decreases s.N() - pos
  {
    hide Reachable, Paired;
    t := s;
    if pos < s.N() {
      t := ServesNext(first, s, pos);
      t := ServesOthers(first, t, pos + 1);
    }
  }

  /** With everything behind index 0 completed, a scan that starts there comes to the end. */
  lemma {:induction false} PassesAll(first: World, s: World, i: nat) returns (t: World)
    requires Reachable(first, s) && Static(s) && i < |s.drivers| && s.drivers[i] == Scan(true) && s.N() >= 2
    requires s.scan.customerPos >= 1 && CompletedFromOne(s, true)
    ensures Reachable(first, t) && Static(t) && t.scan.customerPos >= s.N()
    ensures t.drivers == s.drivers && t.count == s.count && t.mealOf == s.mealOf
    decreases if s.scan.looped then 0 else 1, s.N() - s.scan.customerPos
  {
    hide Reachable, Paired;
    t := s;
    if s.scan.customerPos < s.N() {
      assert Completed(s, true, s.scan.customerPos) > 0;
      t := Passes(first, s, i);
      assert forall k :: 1 <= k < s.N() ==> Completed(t, true, k) == Completed(s, true, k);
      t := PassesAll(first, t, i);
    }
  }

  /**
   * It can indeed be left: with three drivers and two pairs or more, whatever the pairing, there is a run
   * in which a driver returns although customer 0 and its meal have not even been picked up.
   */
  lemma FirstIsSkipped(mealOf: seq<nat>, customerOf: seq<nat>, bothKinds: bool, threads: nat) returns (s: World)
    requires Paired(mealOf, customerOf) && |mealOf| >= 2 && threads >= 3
    ensures Reachable(Init(mealOf, customerOf, bothKinds, threads), s)
    ensures s.Shape() && 1 < |s.drivers| && s.drivers[1].Gone? && 0 < s.N()
    ensures Picks(s, 0) == 0 && s.count.cDone[0] == 0 && MealDone(s, 0) == 0
  {
    hide Reachable, Paired, FirstHeld;
    var s1 := HandsOutFirst(mealOf, customerOf, bothKinds, threads);
    var first := Init(mealOf, customerOf, bothKinds, threads);
    var s2 := ServesOthers(first, s1, 1);
    s := SkipsFirst(first, s2);
    AtMostOnce(mealOf, customerOf, bothKinds, threads, s, 0);
  }

  lemma HandsOutFirst(mealOf: seq<nat>, customerOf: seq<nat>, bothKinds: bool, threads: nat) returns (s: World)
    requires Paired(mealOf, customerOf) && |mealOf| >= 2 && threads >= 3
    ensures var first := Init(mealOf, customerOf, bothKinds, threads);
      Reachable(first, s) && FirstHeld(s, 1) && s.N() == |mealOf|
  {
    var first := Init(mealOf, customerOf, bothKinds, threads);
    StaysReachable(first);
    hide Reachable;
    var s1 := Asks(first, first, 0);
    s := Finds(first, s1, 0);
    StartHeld(first, s);
  }

  lemma StartHeld(first: World, s: World)
    requires Static(first) && |first.drivers| >= 3 && first.N() >= 2
    requires first == Init(first.mealOf, first.customerOf, first.bothKinds, |first.drivers|)
    requires s == Moved(first, 0, CheckCustomer(Request(true, 0))).(
      locks := first.locks.(request := Nobody), scan := first.scan.(customerPos := 1)) && Static(s)
    ensures FirstHeld(s, 1)
  {}

  /** Driver 2 is handed customer 0 after the cursor has wrapped, and driver 1 then passes it over. */
  lemma SkipsFirst(first: World, s: World) returns (t: World)
    requires Reachable(first, s) && FirstHeld(s, s.N()) && s.N() >= 2
    ensures Reachable(first, t) && Static(t) && t.N() == s.N() && 1 < |t.drivers| && t.drivers[1].Gone?
    ensures Picks(t, 0) == 0
  {
    hide Reachable, Paired;
    var s1 := Asks(first, s, 2);
    var s2 := Finds(first, s1, 2);
    var s3 := Asks(first, s2, 1);
    var s4 := PassesAll(first, s3, 1);
    t := Returns(first, s4, 1);
  }
}
