/**
 * What every step of the Ubler drivers keeps: the locks exclude, each pair is picked up at most
 * once, a pair not yet completed has a driver under way with it, and no pair is forgotten.
 */
module UblerInvariant {
  import opened Common
  import opened Ubler

  // ---------------------------------------------------------------- the invariant

  ghost predicate Static(s: World) { s.Shape() && Paired(s.mealOf, s.customerOf) }

  predicate InRequest(d: Driver) { d.Choose? || d.Enter? || d.Scan? }

  predicate InCustomer(d: Driver, c: nat) {
    (d.TestOwn? || d.TestOther? || d.PickUp? || d.UnlockAndGo? || d.UnlockOnly?) && d.r.c == c
  }

  /** Under way with the pair of customer c, from the pick-up on. */
  predicate Carries(d: Driver, c: nat) { (d.UnlockAndGo? || d.DropFirst? || d.DropSecond?) && d.r.c == c }

  /** About to find out whether the pair of customer c still has to be picked up. */
  predicate Pursues(d: Driver, c: nat) {
    (d.CheckCustomer? || d.CheckMeal? || d.TakeLock? || d.TestOwn? || d.TestOther? || d.PickUp?) && d.r.c == c
  }

  /** Pick-ups of customer c and of its meal together. */
  function Picks(s: World, c: nat): nat
    requires s.Shape() && c < s.N()
  {
    s.count.cPicked[c] + s.count.mPicked[s.mealOf[c]]
  }

  function MealDone(s: World, c: nat): nat
    requires s.Shape() && c < s.N()
  {
    s.count.mDone[s.mealOf[c]]
  }

  ghost predicate RequestLockOk(s: World) {
    && (s.locks.request.Held? ==> s.locks.request.i < |s.drivers|)
    && forall i :: 0 <= i < |s.drivers| ==> (s.locks.request == Held(i) <==> InRequest(s.drivers[i]))
  }

  ghost predicate CustomerLockOk(s: World, c: nat)
    requires s.Shape() && c < s.N()
  {
    && (s.locks.customer[c].Held? ==> s.locks.customer[c].i < |s.drivers|)
    && forall i :: 0 <= i < |s.drivers| ==> (s.locks.customer[c] == Held(i) <==> InCustomer(s.drivers[i], c))
  }

  ghost predicate UnderWay(s: World, c: nat) { exists j :: 0 <= j < |s.drivers| && Carries(s.drivers[j], c) }

  /** Picked up at most once, completed at most as often, and whoever has not completed it is under way. */
  ghost predicate PairOk(s: World, c: nat)
    requires s.Shape() && c < s.N()
  {
    && Picks(s, c) <= 1 && s.count.cDone[c] <= Picks(s, c) && MealDone(s, c) <= Picks(s, c)
    && (Picks(s, c) == 1 && (s.count.cDone[c] == 0 || MealDone(s, c) == 0) ==> UnderWay(s, c))
  }

  /** What a driver knows where it is. */
  ghost predicate DriverOk(s: World, d: Driver)
    requires s.Shape() && (Requested(d).Some? ==> Requested(d).value.c < s.N())
  {
    && (d.CheckMeal? ==> s.count.cPicked[d.r.c] > 0)
    && (d.TestOther? ==> OwnPicked(s, d.r) == 0)
    && (d.PickUp? ==> Picks(s, d.r.c) == 0)
    && (d.UnlockOnly? ==> Picks(s, d.r.c) > 0)
    && (d.UnlockAndGo? || d.DropFirst? ==> Picks(s, d.r.c) == 1 && s.count.cDone[d.r.c] == MealDone(s, d.r.c) == 0)
    && (d.DropSecond? ==> Picks(s, d.r.c) == 1
                          && s.count.cDone[d.r.c] == (if d.r.isCustomer then 1 else 0)
                          && MealDone(s, d.r.c) == (if d.r.isCustomer then 0 else 1))
    && (d.Enter? ==> !s.scan.looped)
    && (d.Scan? ==> ScanOk(s, d.isCustomer))
    && (d.Gone? ==> s.scan.customersOver || s.scan.mealsOver)
  }

  /** Since the cursor wrapped, everything from index 1 up to it was found completed. */
  ghost predicate ScanOk(s: World, isCustomer: bool)
    requires s.Shape()
  {
    var pos := Cursor(s, isCustomer);
    if s.scan.looped then pos >= 1 && forall k :: 1 <= k < pos && k < s.N() ==> Completed(s, isCustomer, k) > 0
    else pos < s.N() || s.N() == 0
  }

  ghost predicate OneCarrier(s: World) {
    forall i, j, c ::
      0 <= i < |s.drivers| && 0 <= j < |s.drivers| && Carries(s.drivers[i], c) && Carries(s.drivers[j], c) ==> i == j
  }

  /** The pair of customer c was picked up, or a driver is about to see to it. */
  ghost predicate Handled(s: World, c: nat)
    requires s.Shape() && c < s.N()
  {
    Picks(s, c) > 0 || exists j :: 0 <= j < |s.drivers| && Pursues(s.drivers[j], c)
  }

  /** Index 0, which a wrapped cursor skips, is handled as soon as the cursor has passed it. */
  ghost predicate FirstHandled(s: World, isCustomer: bool)
    requires s.Shape()
  {
    && Cursor(s, isCustomer) <= s.N()
    && (Cursor(s, isCustomer) > 0 ==> Handled(s, RequestAt(s, isCustomer, 0).c))
  }

  ghost predicate OverOk(s: World)
    requires s.Shape()
  {
    s.scan.customersOver || s.scan.mealsOver ==> forall c :: 0 <= c < s.N() ==> Handled(s, c)
  }

  ghost predicate Inv(s: World) {
    && Static(s) && RequestLockOk(s) && (forall c :: 0 <= c < s.N() ==> CustomerLockOk(s, c))
    && (forall c :: 0 <= c < s.N() ==> PairOk(s, c))
    && (forall i :: 0 <= i < |s.drivers| ==> DriverOk(s, s.drivers[i]))
    && OneCarrier(s) && FirstHandled(s, true) && FirstHandled(s, false) && OverOk(s)
  }

  lemma InitInv(mealOf: seq<nat>, customerOf: seq<nat>, bothKinds: bool, threads: nat)
    requires Paired(mealOf, customerOf)
    ensures Inv(Init(mealOf, customerOf, bothKinds, threads))
  {}

  // ---------------------------------------------------------------- what a step changes

  /** Driver i moves; the pairing and the other drivers stay. */
  lemma Frame(s: World, t: World, i: nat, coin: bool)
    requires Static(s) && Step(s, t, i, coin)
    ensures t.mealOf == s.mealOf && t.customerOf == s.customerOf && t.drivers == s.drivers[i := Goto(s, i, coin)]
    ensures Static(t)
  {
    SizesFrame(s, i);
    GotoInside(s, i, coin);
    hide Goto, NextLocks, NextCounters;
  }

  lemma SizesFrame(s: World, i: nat)
    requires s.Shape() && i < |s.drivers| && Ready(s, i)
    ensures |NextLocks(s, i).customer| == s.N()
    ensures var k := NextCounters(s, i); |k.cPicked| == |k.cDone| == |k.mPicked| == |k.mDone| == s.N()
  {}

  lemma GotoInside(s: World, i: nat, coin: bool)
    requires s.Shape() && i < |s.drivers| && Ready(s, i)
    ensures var d := Goto(s, i, coin); Requested(d).Some? ==> Requested(d).value.c < s.N()
  {}

  /** Only a pick-up changes how often a pair was picked up. */
  lemma PicksFrame(s: World, t: World, i: nat, coin: bool, c: nat)
    requires Static(s) && Step(s, t, i, coin) && c < s.N() && t.Shape() && t.N() == s.N()
    ensures Picks(t, c) == Picks(s, c) + if s.drivers[i].PickUp? && s.drivers[i].r.c == c then 1 else 0
    ensures t.count.cPicked[c] >= s.count.cPicked[c]
    ensures forall r: Request :: r.c == c && !(s.drivers[i].PickUp? && s.drivers[i].r.c == c) ==>
      OwnPicked(t, r) == OwnPicked(s, r)
  {
    hide Goto, NextCursors, NextLocks;
  }

  /** The two drop-off statements complete one side each. */
  lemma DoneFrame(s: World, t: World, i: nat, coin: bool, c: nat)
    requires Static(s) && Step(s, t, i, coin) && c < s.N() && t.Shape() && t.N() == s.N()
    ensures var d := s.drivers[i];
      && t.count.cDone[c] == s.count.cDone[c] +
           (if ((d.DropFirst? && d.r.isCustomer) || (d.DropSecond? && !d.r.isCustomer)) && d.r.c == c then 1 else 0)
      && MealDone(t, c) == MealDone(s, c) +
           (if ((d.DropFirst? && !d.r.isCustomer) || (d.DropSecond? && d.r.isCustomer)) && d.r.c == c then 1 else 0)
  {
    hide Goto, NextCursors, NextLocks;
  }

  lemma LockFrame(s: World, t: World, i: nat, coin: bool)
    requires Static(s) && Step(s, t, i, coin)
    ensures var d := s.drivers[i];
      && t.locks.customer == (if d.TakeLock? then s.locks.customer[d.r.c := Held(i)]
                              else if d.UnlockAndGo? || d.UnlockOnly? then s.locks.customer[d.r.c := Nobody]
                              else s.locks.customer)
      && t.locks.request == (if d.Ask? then Held(i)
                             else if d.Scan? && !Goto(s, i, coin).Scan? then Nobody
                             else s.locks.request)
  {}

  lemma CursorFrame(s: World, t: World, i: nat, coin: bool, isCustomer: bool)
    requires Static(s) && Step(s, t, i, coin)
    ensures var d := s.drivers[i];
      && (!(d.Enter? || d.Scan?) || d.isCustomer != isCustomer ==> Cursor(t, isCustomer) == Cursor(s, isCustomer))
      && (!InRequest(d) ==>
            && t.scan.looped == s.scan.looped
            && t.scan.customersOver == s.scan.customersOver && t.scan.mealsOver == s.scan.mealsOver)
      && (!d.Scan? ==> t.scan.customersOver == s.scan.customersOver && t.scan.mealsOver == s.scan.mealsOver)
      && (d.Choose? ==> !t.scan.looped) && (d.Enter? ==> t.scan.looped == s.scan.looped)
  {}

  // ---------------------------------------------------------------- every step keeps it

  lemma StepRequestLock(s: World, t: World, i: nat, coin: bool)
    requires Static(s) && RequestLockOk(s) && Step(s, t, i, coin)
    ensures RequestLockOk(t)
  {
    LockFrame(s, t, i, coin);
    Frame(s, t, i, coin);
    hide NextCursors, NextLocks, NextCounters;
  }

  lemma StepCustomerLock(s: World, t: World, i: nat, coin: bool, c: nat)
    requires Static(s) && c < s.N() && CustomerLockOk(s, c) && Step(s, t, i, coin) && t.Shape() && t.N() == s.N()
    ensures CustomerLockOk(t, c)
  {
    LockFrame(s, t, i, coin);
    Frame(s, t, i, coin);
    hide NextCursors, NextLocks, NextCounters;
  }

  /** A driver that carries or pursues c goes on doing so, until it has settled it. */
  lemma GotoKeeps(s: World, i: nat, coin: bool, c: nat)
    requires s.Shape() && i < |s.drivers| && Ready(s, i) && c < s.N()
    ensures var d, e := s.drivers[i], Goto(s, i, coin);
      && (Carries(d, c) && !d.DropSecond? ==> Carries(e, c))
      && (Carries(e, c) ==> Carries(d, c) || (d.PickUp? && d.r.c == c))
      && (Pursues(d, c) && DriverOk(s, d) ==> Pursues(e, c) || d.PickUp? || Picks(s, c) > 0)
      && (d.PickUp? && d.r.c == c ==> Carries(e, c))
  {}

  lemma StepPair(s: World, t: World, i: nat, coin: bool, c: nat)
    requires Static(s) && c < s.N() && PairOk(s, c) && Step(s, t, i, coin) && DriverOk(s, s.drivers[i])
    requires t.Shape() && t.N() == s.N() && |t.drivers| == |s.drivers|
    ensures PairOk(t, c)
  {
    PicksFrame(s, t, i, coin, c);
    DoneFrame(s, t, i, coin, c);
    GotoKeeps(s, i, coin, c);
    hide NextCursors, NextLocks, NextCounters, Goto;
    if UnderWay(s, c) {
      var j :| 0 <= j < |s.drivers| && Carries(s.drivers[j], c);
      assert j != i ==> Carries(t.drivers[j], c);
    }
    if Carries(t.drivers[i], c) {
      assert UnderWay(t, c);
    }
  }

  lemma StepOneCarrier(s: World, t: World, i: nat, coin: bool)
    requires Inv(s) && Step(s, t, i, coin)
    ensures OneCarrier(t)
  {
    hide RequestLockOk, CustomerLockOk, FirstHandled, OverOk, PairOk, NextCursors, NextLocks, NextCounters, Goto;
    forall j, c: nat | 0 <= j < |t.drivers| && j != i && Carries(t.drivers[j], c) && Carries(t.drivers[i], c)
      ensures false
    {
      assert DriverOk(s, s.drivers[j]) && DriverOk(s, s.drivers[i]);
      assert Requested(s.drivers[j]) == Some(s.drivers[j].r);
      GotoKeeps(s, i, coin, c);
    }
  }

  lemma StepHandled(s: World, t: World, i: nat, coin: bool, c: nat)
    requires Static(s) && c < s.N() && Step(s, t, i, coin) && DriverOk(s, s.drivers[i]) && Handled(s, c)
    requires t.Shape() && t.N() == s.N() && |t.drivers| == |s.drivers|
    ensures Handled(t, c)
  {
    PicksFrame(s, t, i, coin, c);
    GotoKeeps(s, i, coin, c);
    hide NextCursors, NextLocks, NextCounters, Goto, Picks, DriverOk;
    if Picks(s, c) == 0 {
      var j :| 0 <= j < |s.drivers| && Pursues(s.drivers[j], c);
      assert j != i ==> Pursues(t.drivers[j], c);
      assert Pursues(t.drivers[i], c) ==> Handled(t, c);
    }
  }

  /** Flags stay set, and completed requests stay completed. */
  lemma Monotone(s: World, t: World, i: nat, coin: bool, isCustomer: bool, k: nat)
    requires Static(s) && Step(s, t, i, coin) && k < s.N() && t.Shape() && t.N() == s.N()
    ensures (s.scan.customersOver ==> t.scan.customersOver) && (s.scan.mealsOver ==> t.scan.mealsOver)
    ensures Completed(t, isCustomer, k) >= Completed(s, isCustomer, k)
  {
    hide Goto, NextLocks;
  }

  lemma FlagsStay(s: World, t: World, i: nat, coin: bool)
    requires Static(s) && Step(s, t, i, coin)
    ensures (s.scan.customersOver ==> t.scan.customersOver) && (s.scan.mealsOver ==> t.scan.mealsOver)
  {
    hide Goto, NextLocks, NextCounters;
  }

  /** Locks: two drivers are never both inside the same one. */
  lemma Exclusion(s: World, i: nat, j: nat)
    requires Inv(s) && i < |s.drivers| && j < |s.drivers| && i != j
    ensures !(InRequest(s.drivers[i]) && InRequest(s.drivers[j]))
    ensures forall c: nat :: c < s.N() ==> !(InCustomer(s.drivers[i], c) && InCustomer(s.drivers[j], c))
    ensures forall c: nat :: c < s.N() ==> !(Carries(s.drivers[i], c) && Carries(s.drivers[j], c))
  {
    hide PairOk, DriverOk, FirstHandled, OverOk;
    forall c: nat | c < s.N() ensures !(InCustomer(s.drivers[i], c) && InCustomer(s.drivers[j], c)) {
      assert CustomerLockOk(s, c);
    }
  }

  /** What another driver knows stays true. */
  lemma OtherDriverOk(s: World, t: World, i: nat, coin: bool, j: nat)
    requires Inv(s) && Step(s, t, i, coin) && j < |s.drivers| && j != i
    requires Static(t) && t.N() == s.N() && t.mealOf == s.mealOf
    ensures DriverOk(t, s.drivers[j])
  {
    hide RequestLockOk, CustomerLockOk, FirstHandled, OverOk, PairOk, OneCarrier, ScanOk, NextCursors;
    hide NextLocks, NextCounters, Goto;
    var d := s.drivers[j];
    assert DriverOk(s, d) && DriverOk(s, s.drivers[i]);
    Exclusion(s, i, j);
    FlagsStay(s, t, i, coin);
    if Requested(d).Some? {
      var c := d.r.c;
      PicksFrame(s, t, i, coin, c);
      DoneFrame(s, t, i, coin, c);
      assert !(InCustomer(s.drivers[i], c) && InCustomer(d, c)) && !(Carries(s.drivers[i], c) && Carries(d, c));
    } else if d.Scan? {
      OtherScanOk(s, t, i, coin, d.isCustomer);
    } else if d.Enter? {
      CursorFrame(s, t, i, coin, d.isCustomer);
    }
  }

  lemma OtherScanOk(s: World, t: World, i: nat, coin: bool, isCustomer: bool)
    requires Static(s) && Step(s, t, i, coin) && ScanOk(s, isCustomer) && !InRequest(s.drivers[i])
    requires Static(t) && t.N() == s.N()
    ensures ScanOk(t, isCustomer)
  {
    hide NextCursors, NextLocks, NextCounters, Goto;
    CursorFrame(s, t, i, coin, isCustomer);
    forall k | 1 <= k < Cursor(t, isCustomer) && k < t.N() && t.scan.looped ensures Completed(t, isCustomer, k) > 0 {
      assert Completed(s, isCustomer, k) > 0;
      Monotone(s, t, i, coin, isCustomer, k);
    }
  }

  /** What the driver that moved knows. */
  lemma MovedDriverOk(s: World, t: World, i: nat, coin: bool)
    requires Static(s) && Step(s, t, i, coin) && DriverOk(s, s.drivers[i])
    requires FirstHandled(s, true) && FirstHandled(s, false) && forall c :: 0 <= c < s.N() ==> PairOk(s, c)
    requires Static(t) && t.N() == s.N() && t.mealOf == s.mealOf
    ensures DriverOk(t, t.drivers[i])
  {
    hide NextCounters, NextLocks, FirstHandled;
    var d := s.drivers[i];
    if Requested(d).Some? {
      assert PairOk(s, d.r.c);
      PicksFrame(s, t, i, coin, d.r.c);
      DoneFrame(s, t, i, coin, d.r.c);
    } else if d.Scan? || d.Enter? {
      MovedScanOk(s, t, i, coin, d.isCustomer);
    }
  }

  lemma MovedScanOk(s: World, t: World, i: nat, coin: bool, isCustomer: bool)
    requires Static(s) && Step(s, t, i, coin) && DriverOk(s, s.drivers[i])
    requires FirstHandled(s, isCustomer)
    requires s.drivers[i] == Scan(isCustomer) || s.drivers[i] == Enter(isCustomer)
    requires Static(t) && t.N() == s.N()
    ensures Goto(s, i, coin).Scan? ==> ScanOk(t, isCustomer)
    ensures t.count == s.count
  {
    hide NextLocks, Handled;
    if s.drivers[i].Scan? {
      forall k | 1 <= k < Cursor(t, isCustomer) && k < t.N() && t.scan.looped && Goto(s, i, coin).Scan?
        ensures Completed(t, isCustomer, k) > 0
      {
        assert Completed(t, isCustomer, k) == Completed(s, isCustomer, k);
      }
    }
  }

  lemma StepFirstHandled(s: World, t: World, i: nat, coin: bool, isCustomer: bool)
    requires Inv(s) && Step(s, t, i, coin) && Static(t) && t.N() == s.N() && t.customerOf == s.customerOf
    requires |t.drivers| == |s.drivers| && t.drivers[i] == Goto(s, i, coin)
    ensures FirstHandled(t, isCustomer)
  {
    hide RequestLockOk, CustomerLockOk, OverOk, OneCarrier, Handled, NextLocks, NextCounters, DriverOk;
    hide PairOk, ScanOk, Paired;
    assert DriverOk(s, s.drivers[i]);
    CursorFrame(s, t, i, coin, isCustomer);
    if s.N() > 0 {
      var c := RequestAt(s, isCustomer, 0).c;
      if Handled(s, c) {
        StepHandled(s, t, i, coin, c);
      } else if s.drivers[i] == Scan(isCustomer) && Cursor(s, isCustomer) == 0 {
        Inspected(s, isCustomer, 0);
        assert Completed(s, isCustomer, 0) == 0;
        assert t.drivers[i] == CheckCustomer(RequestAt(s, isCustomer, 0));
        HandedOut(t, i, RequestAt(s, isCustomer, 0));
      }
    }
  }

  lemma HandedOut(t: World, i: nat, r: Request)
    requires t.Shape() && i < |t.drivers| && t.drivers[i] == CheckCustomer(r) && r.c < t.N()
    ensures Handled(t, r.c)
  {
    assert Pursues(t.drivers[i], r.c);
  }

  /** A request found completed was picked up. */
  lemma Inspected(s: World, isCustomer: bool, k: nat)
    requires Inv(s) && k < s.N()
    ensures Completed(s, isCustomer, k) > 0 ==> Handled(s, RequestAt(s, isCustomer, k).c)
  {
    hide RequestLockOk, CustomerLockOk, OverOk, OneCarrier, DriverOk, FirstHandled;
    assert PairOk(s, RequestAt(s, isCustomer, k).c);
  }

  /** A scan that finds nothing has found everything completed, but for index 0, which was handed out before. */
  lemma ScanEnds(s: World, i: nat, isCustomer: bool, c: nat)
    requires Inv(s) && i < |s.drivers| && s.drivers[i] == Scan(isCustomer) && Cursor(s, isCustomer) >= s.N()
    requires c < s.N()
    ensures Handled(s, c)
  {
    hide RequestLockOk, CustomerLockOk, OverOk, OneCarrier, PairOk, Handled;
    assert DriverOk(s, s.drivers[i]);
    var k := if isCustomer then c else s.mealOf[c];
    Inspected(s, isCustomer, k);
    assert RequestAt(s, isCustomer, k).c == c;
  }

  lemma StepOver(s: World, t: World, i: nat, coin: bool)
    requires Inv(s) && Step(s, t, i, coin) && Static(t) && t.N() == s.N() && |t.drivers| == |s.drivers|
    ensures OverOk(t)
  {
    hide RequestLockOk, CustomerLockOk, OneCarrier, PairOk, Handled, DriverOk, FirstHandled, NextLocks;
    hide NextCounters, Goto;
    var over := t.scan.customersOver || t.scan.mealsOver;
    forall c | 0 <= c < s.N() && over ensures Handled(t, c) {
      assert DriverOk(s, s.drivers[i]);
      if !Handled(s, c) {
        assert s.drivers[i].Scan? && Cursor(s, s.drivers[i].isCustomer) >= s.N();
        ScanEnds(s, i, s.drivers[i].isCustomer, c);
      }
      StepHandled(s, t, i, coin, c);
    }
  }

  lemma StepInv(s: World, t: World, i: nat, coin: bool)
    requires Inv(s) && Step(s, t, i, coin)
    ensures Inv(t)
  {
    hide RequestLockOk, CustomerLockOk, OneCarrier, PairOk, Handled, DriverOk, FirstHandled, OverOk, Step, Goto;
    StepShape(s, t, i, coin);
    Frame(s, t, i, coin);
    StepRequestLock(s, t, i, coin);
    StepOneCarrier(s, t, i, coin);
    StepFirstHandled(s, t, i, coin, true);
    StepFirstHandled(s, t, i, coin, false);
    StepOver(s, t, i, coin);
    forall c | 0 <= c < t.N() ensures CustomerLockOk(t, c) && PairOk(t, c) {
      StepCustomerLock(s, t, i, coin, c);
      StepPair(s, t, i, coin, c);
    }
    forall j | 0 <= j < |t.drivers| ensures DriverOk(t, t.drivers[j]) {
      if j == i {
        MovedDriverOk(s, t, i, coin);
      } else {
        OtherDriverOk(s, t, i, coin, j);
      }
    }
  }

  lemma StepShape(s: World, t: World, i: nat, coin: bool)
    requires Step(s, t, i, coin)
    ensures s.Shape() && i < |s.drivers| && Ready(s, i)
  {}
}
