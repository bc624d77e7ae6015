/**
 * The Ubler drivers all return, and with them everybody is served, in every schedule that is fair
 * to drivers under way with a customer or a meal. Other drivers may be held up for as long as the
 * schedule likes; nobody waits for a lock that is not given back.
 */
module UblerLiveness {
  import opened Common
  import opened Ubler
  import opened UblerInvariant
  import opened UblerTheorems

  // ---------------------------------------------------------------- what can happen only so often

  /** Pick-ups and completions so far. */
  function Events(s: World): nat {
    Sum(s.count.cPicked) + Sum(s.count.mPicked) + Sum(s.count.cDone) + Sum(s.count.mDone)
  }

  predicate IsEvent(d: Driver) { d.PickUp? || d.DropFirst? || d.DropSecond? }

  lemma EventsStep(s: World, t: World, i: nat, coin: bool)
    requires Static(s) && Step(s, t, i, coin)
    ensures Events(t) == Events(s) + if IsEvent(s.drivers[i]) then 1 else 0
  {
    hide Sum, NextCursors, NextLocks, NextStats, Goto, Paired;
    CountFrame(s, t, i, coin);
    var d := s.drivers[i];
    if Requested(d).Some? {
      var c, m := d.r.c, s.mealOf[d.r.c];
      SumUpdate(s.count.cPicked, c, s.count.cPicked[c] + 1);
      SumUpdate(s.count.mPicked, m, s.count.mPicked[m] + 1);
      SumUpdate(s.count.cDone, c, s.count.cDone[c] + 1);
      SumUpdate(s.count.mDone, m, s.count.mDone[m] + 1);
    }
  }

  lemma {:induction false} SumBound(xs: seq<nat>)
    requires forall i :: 0 <= i < |xs| ==> xs[i] <= 1
    ensures Sum(xs) <= |xs|
    decreases |xs|
  {
    if xs != [] {
      SumBound(xs[..|xs| - 1]);
    }
  }

  lemma EventsBounded(s: World)
    requires Inv(s) && StatsOk(s)
    ensures Events(s) <= 3 * s.N()
  {
    hide RequestLockOk, CustomerLockOk, DriverOk, OneCarrier, FirstHandled, OverOk, Sum;
    forall c | 0 <= c < s.N() ensures Picks(s, c) <= 1 && s.count.cDone[c] <= 1 {
      assert PairOk(s, c);
    }
    forall m | 0 <= m < s.N() ensures s.count.mDone[m] <= 1 {
      assert PairOk(s, s.customerOf[m]) && s.mealOf[s.customerOf[m]] == m;
    }
    SumBound(AllPicks(s));
    SumBound(s.count.cDone);
    SumBound(s.count.mDone);
  }

  // ---------------------------------------------------------------- drivers under way

  /** The statements a driver under way has still to execute. */
  function CarryRank(d: Driver): nat {
    if d.UnlockAndGo? then 3 else if d.DropFirst? then 2 else if d.DropSecond? then 1 else 0
  }

  function CarryRanks(s: World): (r: seq<nat>)
    ensures |r| == |s.drivers| && forall i :: 0 <= i < |s.drivers| ==> r[i] == CarryRank(s.drivers[i])
  {
    seq(|s.drivers|, i requires 0 <= i < |s.drivers| => CarryRank(s.drivers[i]))
  }

  lemma CarryStep(s: World, t: World, i: nat, coin: bool)
    requires Static(s) && Step(s, t, i, coin) && !s.drivers[i].PickUp?
    ensures Sum(CarryRanks(t)) + (if CarryRank(s.drivers[i]) > 0 then 1 else 0) == Sum(CarryRanks(s))
  {
    hide Sum, NextCursors, NextLocks, NextStats, NextCounters, Paired;
    Frame(s, t, i, coin);
    assert CarryRanks(t) == CarryRanks(s)[i := CarryRank(Goto(s, i, coin))];
    SumUpdate(CarryRanks(s), i, CarryRank(Goto(s, i, coin)));
  }

  lemma {:induction false} SumZero(xs: seq<nat>)
    ensures Sum(xs) == 0 ==> forall i :: 0 <= i < |xs| ==> xs[i] == 0
    decreases |xs|
  {
    if xs != [] {
      SumZero(xs[..|xs| - 1]);
    }
  }

  /** With nobody under way, whoever is not completed has not been picked up. */
  lemma NobodyUnderWay(s: World, c: nat)
    requires Inv(s) && Sum(CarryRanks(s)) == 0 && c < s.N()
    ensures s.count.cDone[c] == 0 || MealDone(s, c) == 0 ==> Picks(s, c) == 0
  {
    hide RequestLockOk, CustomerLockOk, DriverOk, OneCarrier, FirstHandled, OverOk, Sum;
    SumZero(CarryRanks(s));
    assert PairOk(s, c);
    forall j | 0 <= j < |s.drivers| ensures !Carries(s.drivers[j], c) {
      assert CarryRanks(s)[j] == 0;
    }
  }

  // ---------------------------------------------------------------- the others

  function Left(n: nat, pos: nat): nat { if pos <= n then n - pos else 0 }

  /** With nobody under way: how far a driver is from its next pick-up or its return. */
  function IdleRank(s: World, d: Driver): nat
    requires s.Shape() && (Requested(d).Some? ==> Requested(d).value.c < s.N())
  {
    var n := s.N();
    match d
    case Gone => 0
    case Ask => 10 + 2 * n
    case Choose => 9 + 2 * n
    case Enter(_) => 8 + 2 * n
    case Scan(isCustomer) => 7 + (if s.scan.looped then 0 else n) + Left(n, Cursor(s, isCustomer))
    case UnlockOnly(_) => 11 + 2 * n
    case CheckCustomer(r) => if Picks(s, r.c) == 0 then 6 else 16 + 2 * n
    case CheckMeal(r) => if Picks(s, r.c) == 0 then 5 else 15 + 2 * n
    case TakeLock(r) => if Picks(s, r.c) == 0 then 4 else 14 + 2 * n
    case TestOwn(r) => if Picks(s, r.c) == 0 then 3 else 13 + 2 * n
    case TestOther(r) => if Picks(s, r.c) == 0 then 2 else 12 + 2 * n
    case PickUp(_) => 1
    case _ => 0
  }

  function IdleRanks(s: World): (r: seq<nat>)
    requires s.Shape()
    ensures |r| == |s.drivers| && forall i :: 0 <= i < |s.drivers| ==> r[i] == IdleRank(s, s.drivers[i])
  {
    seq(|s.drivers|, i requires 0 <= i < |s.drivers| => IdleRank(s, s.drivers[i]))
  }

  /** A driver that is not the one to move stays as far. */
  lemma OthersStay(s: World, t: World, i: nat, coin: bool, j: nat)
    requires Inv(s) && Step(s, t, i, coin) && !s.drivers[i].PickUp? && j < |s.drivers| && j != i
    requires Static(t) && t.N() == s.N()
    ensures IdleRank(t, s.drivers[j]) == IdleRank(s, s.drivers[j])
  {
    hide PairOk, DriverOk, FirstHandled, OverOk, RequestLockOk, CustomerLockOk, NextLocks, NextCounters;
    hide NextCursors, Goto;
    var d := s.drivers[j];
    if Requested(d).Some? {
      PicksFrame(s, t, i, coin, d.r.c);
    } else if d.Scan? {
      Exclusion(s, i, j);
      CursorFrame(s, t, i, coin, d.isCustomer);
    }
  }

  /** A driver that scans comes closer to the end of its scan, finds it, or is handed a pair not yet picked up. */
  lemma ScanDescends(s: World, t: World, i: nat, coin: bool)
    requires Inv(s) && Step(s, t, i, coin) && s.drivers[i].Scan? && Sum(CarryRanks(s)) == 0
    requires Static(t) && t.N() == s.N() && t.drivers[i] == Goto(s, i, coin) && t.count == s.count
    requires t.mealOf == s.mealOf
    ensures IdleRank(t, t.drivers[i]) < IdleRank(s, s.drivers[i])
  {
    hide PairOk, RequestLockOk, CustomerLockOk, OneCarrier, OverOk, Handled, NextLocks, Sum;
    var isCustomer := s.drivers[i].isCustomer;
    var pos := Cursor(s, isCustomer);
    assert DriverOk(s, s.drivers[i]) && FirstHandled(s, isCustomer);
    if pos < s.N() && Completed(s, isCustomer, pos) == 0 {
      NobodyUnderWay(s, RequestAt(s, isCustomer, pos).c);
    }
  }

  /** A driver that does not scan comes closer too. */
  lemma OtherwiseDescends(s: World, t: World, i: nat, coin: bool)
    requires Static(s) && Step(s, t, i, coin) && DriverOk(s, s.drivers[i])
    requires !s.drivers[i].Scan? && !s.drivers[i].PickUp? && CarryRank(s.drivers[i]) == 0
    requires Static(t) && t.N() == s.N() && t.drivers[i] == Goto(s, i, coin)
    ensures IdleRank(t, t.drivers[i]) < IdleRank(s, s.drivers[i])
  {
    hide NextLocks, NextCounters;
    var d := s.drivers[i];
    if Requested(d).Some? {
      PicksFrame(s, t, i, coin, d.r.c);
    }
  }

  lemma CountsStay(s: World, t: World, i: nat, coin: bool)
    requires Static(s) && Step(s, t, i, coin) && !IsEvent(s.drivers[i])
    ensures t.count == s.count
  {
    hide NextLocks, NextCursors, NextStats, Goto;
  }

  /** With nobody under way, every step but a pick-up brings the drivers closer to pick-ups or their return. */
  lemma IdleStep(s: World, t: World, i: nat, coin: bool)
    requires Inv(s) && Step(s, t, i, coin) && !s.drivers[i].PickUp? && Sum(CarryRanks(s)) == 0
    ensures Static(t) && Sum(IdleRanks(t)) < Sum(IdleRanks(s))
  {
    hide PairOk, FirstHandled, OverOk, RequestLockOk, CustomerLockOk, OneCarrier, NextLocks, NextCounters;
    hide NextCursors, Goto, Sum, IdleRank, DriverOk;
    InvStatic(s);
    Frame(s, t, i, coin);
    SumZero(CarryRanks(s));
    assert CarryRanks(s)[i] == 0;
    CountsStay(s, t, i, coin);
    assert DriverOk(s, s.drivers[i]);
    if s.drivers[i].Scan? {
      ScanDescends(s, t, i, coin);
    } else {
      OtherwiseDescends(s, t, i, coin);
    }
    var rank := IdleRank(t, t.drivers[i]);
    forall j | 0 <= j < |s.drivers| && j != i ensures IdleRanks(t)[j] == IdleRanks(s)[j] {
      OthersStay(s, t, i, coin, j);
    }
    assert IdleRanks(t) == IdleRanks(s)[i := rank];
    SumUpdate(IdleRanks(s), i, rank);
  }

  // ---------------------------------------------------------------- schedules

  /** One statement of one driver, or nothing if no driver can move. */
  ghost predicate Goes(s: World, t: World) { Moves(s, t) || (t == s && !exists u :: Moves(s, u)) }

  ghost predicate GoesAt(run: nat -> World, k: nat) { Goes(run(k), run(k + 1)) }

  ghost predicate Schedule(first: World, run: nat -> World) { run(0) == first && forall k: nat :: GoesAt(run, k) }

  ghost predicate StepOf(s: World, t: World, i: nat) { exists coin :: Step(s, t, i, coin) }

  ghost predicate StepsAt(run: nat -> World, i: nat, j: nat) { StepOf(run(j), run(j + 1), i) }

  /** A driver under way is never held up forever. */
  ghost predicate FairToCarriers(run: nat -> World) {
    forall k: nat, i: nat {:trigger run(k).drivers[i]} ::
      i < |run(k).drivers| && CarryRank(run(k).drivers[i]) > 0 ==> exists j: nat :: j >= k && StepsAt(run, i, j)
  }

  lemma {:induction false} ScheduleInv(first: World, run: nat -> World, k: nat)
    requires Inv(first) && StatsOk(first) && Schedule(first, run)
    ensures Inv(run(k)) && StatsOk(run(k)) && run(k).N() == first.N() && |run(k).drivers| == |first.drivers|
  {
    hide Inv, StatsOk, Step;
    if k > 0 {
      ScheduleInv(first, run, k - 1);
      var s, t := run(k - 1), run(k - 1 + 1);
      assert GoesAt(run, k - 1);
      if Moves(s, t) {
        var i, coin :| Step(s, t, i, coin);
        StepInv(s, t, i, coin);
        InvStatic(s);
        StepShape(s, t, i, coin);
        StepStats(s, t, i, coin);
        Frame(s, t, i, coin);
      }
    }
  }

  function Carrying(s: World): nat { Sum(CarryRanks(s)) }

  /** Events, and then the statements of drivers under way, only go one way. */
  ghost predicate NotBack(s: World, t: World) {
    Events(t) > Events(s) || (Events(t) == Events(s) && Carrying(t) <= Carrying(s))
  }

  ghost predicate Onward(s: World, t: World) {
    Events(t) > Events(s) || (Events(t) == Events(s) && Carrying(t) < Carrying(s))
  }

  /** A step goes onward if it is that of a driver under way, and never goes back. */
  lemma StepOnward(s: World, t: World, i: nat, coin: bool)
    requires Static(s) && Step(s, t, i, coin)
    ensures NotBack(s, t) && (CarryRank(s.drivers[i]) > 0 ==> Onward(s, t))
    ensures !Onward(s, t) ==> !s.drivers[i].PickUp?
    ensures forall j :: 0 <= j < |s.drivers| && j != i ==> j < |t.drivers| && t.drivers[j] == s.drivers[j]
  {
    hide NextLocks, NextCounters, NextCursors, NextStats, Goto, Sum;
    Frame(s, t, i, coin);
    EventsStep(s, t, i, coin);
    if !s.drivers[i].PickUp? {
      CarryStep(s, t, i, coin);
    }
  }

  /** Until its next statement, or something else that goes onward, a driver under way stays where it is. */
  lemma {:induction false} StaysUnderWay(first: World, run: nat -> World, i: nat, k: nat, m: nat)
    requires Inv(first) && StatsOk(first) && Schedule(first, run) && k <= m
    requires i < |run(k).drivers| && CarryRank(run(k).drivers[i]) > 0
    ensures Onward(run(k), run(m)) || (NotBack(run(k), run(m)) && i < |run(m).drivers|
      && run(m).drivers[i] == run(k).drivers[i])
    decreases m - k
  {
    hide Inv, StatsOk, Step, Events, Carrying;
    if m > k {
      StaysUnderWay(first, run, i, k, m - 1);
      ScheduleInv(first, run, m - 1);
      InvStatic(run(m - 1));
      var s, t := run(m - 1), run(m - 1 + 1);
      assert GoesAt(run, m - 1);
      if Moves(s, t) {
        var j, coin :| Step(s, t, j, coin);
        StepOnward(s, t, j, coin);
      }
    }
  }

  lemma SomeoneCarries(s: World)
    requires Carrying(s) > 0
    ensures exists i: nat :: i < |s.drivers| && CarryRank(s.drivers[i]) > 0
  {
    if forall i :: 0 <= i < |s.drivers| ==> CarryRank(s.drivers[i]) == 0 {
      SumConstant(CarryRanks(s), 0);
    }
  }

  /** With a driver under way, a fair schedule goes onward. */
  lemma CarrierOnward(first: World, run: nat -> World, k: nat) returns (next: nat)
    requires Inv(first) && StatsOk(first) && Schedule(first, run) && FairToCarriers(run) && Carrying(run(k)) > 0
    ensures next > k && Onward(run(k), run(next))
  {
    hide Inv, StatsOk, Step, Events, Sum;
    var s := run(k);
    SomeoneCarries(s);
    var i: nat :| i < |s.drivers| && CarryRank(s.drivers[i]) > 0;
    assert run(k).drivers[i] == s.drivers[i];
    var j: nat :| j >= k && StepsAt(run, i, j);
    StaysUnderWay(first, run, i, k, j);
    ScheduleInv(first, run, j);
    InvStatic(run(j));
    var u, v := run(j), run(j + 1);
    assert StepOf(u, v, i);
    var coin :| Step(u, v, i, coin);
    StepOnward(u, v, i, coin);
    next := j + 1;
  }

  /** With nobody under way, each step goes onward or brings the drivers closer. */
  lemma IdleOnward(first: World, run: nat -> World, k: nat)
    requires Inv(first) && StatsOk(first) && Schedule(first, run) && Carrying(run(k)) == 0 && !AllGone(run(k))
    ensures Static(run(k)) && Static(run(k + 1))
    ensures Onward(run(k), run(k + 1)) ||
            (NotBack(run(k), run(k + 1)) && Sum(IdleRanks(run(k + 1))) < Sum(IdleRanks(run(k))))
  {
    hide Inv, StatsOk, Step, Events, Sum, NotBack, Onward, AllGone, IdleRank;
    var s, t := run(k), run(k + 1);
    ScheduleInv(first, run, k);
    ScheduleInv(first, run, k + 1);
    InvStatic(s);
    InvStatic(t);
    SomeoneMoves(s);
    assert GoesAt(run, k);
    assert Moves(s, t);
    var i, coin :| Step(s, t, i, coin);
    StepOnward(s, t, i, coin);
    if !Onward(s, t) {
      IdleStep(s, t, i, coin);
    }
  }

  lemma SomeoneMoves(s: World)
    requires Inv(s) && !AllGone(s)
    ensures exists t :: Moves(s, t)
  {
    hide Inv;
    InvStatic(s);
    var i: nat :| i < |s.drivers| && !s.drivers[i].Gone?;
    var j := ReadyDriver(s, i);
    ReadySteps(s, j);
  }

  /** From any moment on, all drivers return. */
  lemma {:induction false} AllReturn(first: World, run: nat -> World, k: nat) returns (end: nat)
    requires Inv(first) && StatsOk(first) && Schedule(first, run) && FairToCarriers(run)
    requires Static(run(k))
    ensures AllGone(run(end))
    decreases 3 * first.N() - Events(run(k)), Carrying(run(k)), Sum(IdleRanks(run(k)))
  {
    hide Inv, StatsOk, Step, Events, Sum, AllGone, IdleRank, Carrying, FairToCarriers, Schedule;
    if AllGone(run(k)) {
      return k;
    }
    ScheduleInv(first, run, k);
    EventsBounded(run(k));
    var next := k + 1;
    if Carrying(run(k)) > 0 {
      next := CarrierOnward(first, run, k);
    } else {
      IdleOnward(first, run, k);
    }
    ScheduleInv(first, run, next);
    InvStatic(run(next));
    EventsBounded(run(next));
    end := AllReturn(first, run, next);
  }

  /**
   * Every schedule that never holds up a driver under way forever reaches a moment when all drivers
   * have returned, and every customer and its meal have been picked up once and both completed once.
   */
  lemma EveryFairScheduleServes(mealOf: seq<nat>, customerOf: seq<nat>, bothKinds: bool, threads: nat,
      run: nat -> World)
    requires Paired(mealOf, customerOf) && threads >= 1
    requires Schedule(Init(mealOf, customerOf, bothKinds, threads), run) && FairToCarriers(run)
    ensures exists end: nat :: AllGone(run(end)) && Served(run(end))
  {
    var first := Init(mealOf, customerOf, bothKinds, threads);
    InitInv(mealOf, customerOf, bothKinds, threads);
    InitStats(mealOf, customerOf, bothKinds, threads);
    hide Inv, StatsOk, Schedule, FairToCarriers, AllGone;
    InvStatic(first);
    ScheduleStarts(first, run);
    var end := AllReturn(first, run, 0);
    ScheduleInv(first, run, end);
    InvStatic(run(end));
    forall c | 0 <= c < run(end).N()
      ensures Picks(run(end), c) == 1 && run(end).count.cDone[c] == 1 && MealDone(run(end), c) == 1
    {
      GoneSettled(run(end), c);
    }
  }

  lemma ScheduleStarts(first: World, run: nat -> World)
    requires Schedule(first, run)
    ensures run(0) == first
  {}

  /** Every pair was picked up once, and both sides were completed once. */
  ghost predicate Served(s: World) {
    s.Shape() && forall c :: 0 <= c < s.N() ==> Picks(s, c) == 1 && s.count.cDone[c] == 1 && MealDone(s, c) == 1
  }

  // ---------------------------------------------------------------- fairness is needed

  /** A driver that is somewhere else later has executed a statement in between. */
  lemma {:induction false} HasStepped(first: World, run: nat -> World, i: nat, k: nat, m: nat) returns (j: nat)
    requires Inv(first) && StatsOk(first) && Schedule(first, run) && k <= m
    requires i < |run(k).drivers| && i < |run(m).drivers| && run(k).drivers[i] != run(m).drivers[i]
    ensures k <= j && StepsAt(run, i, j)
    decreases m - k
  {
    hide Inv, StatsOk, Step;
    if StepsAt(run, i, k) {
      return k;
    }
    ScheduleInv(first, run, k);
    InvStatic(run(k));
    var s, t := run(k), run(k + 1);
    assert GoesAt(run, k) && !StepOf(s, t, i);
    if Moves(s, t) {
      var d, coin :| Step(s, t, d, coin);
      StepOnward(s, t, d, coin);
    }
    j := HasStepped(first, run, i, k + 1, m);
  }

  /** Drivers that have returned stay away. */
  lemma {:induction false} GoneStays(first: World, run: nat -> World, end: nat, k: nat)
    requires Inv(first) && StatsOk(first) && Schedule(first, run) && end <= k && AllGone(run(end))
    ensures AllGone(run(k))
    decreases k - end
  {
    hide Inv, StatsOk, Step;
    if end < k {
      GoneStays(first, run, end, k - 1);
      var s, t := run(k - 1), run(k - 1 + 1);
      assert GoesAt(run, k - 1);
      if Moves(s, t) {
        var i, coin :| Step(s, t, i, coin);
        StepShape(s, t, i, coin);
      }
    }
  }

  /** A schedule in which all drivers return has held up none of them. */
  lemma ReturningIsFair(first: World, run: nat -> World, end: nat)
    requires Inv(first) && StatsOk(first) && Schedule(first, run) && AllGone(run(end))
    ensures FairToCarriers(run)
  {
    hide Inv, StatsOk, Step, Schedule, StepsAt;
    forall k: nat, i: nat | i < |run(k).drivers| && CarryRank(run(k).drivers[i]) > 0
      ensures exists j: nat :: j >= k && StepsAt(run, i, j)
    {
      ScheduleInv(first, run, k);
      ScheduleInv(first, run, end);
      if end <= k {
        GoneStays(first, run, end, k);
      } else {
        var j := HasStepped(first, run, i, k, end);
      }
    }
  }

  /** All drivers return exactly in the schedules that are fair to drivers under way, and then everybody is served. */
  lemma ReturnExactlyIfFair(mealOf: seq<nat>, customerOf: seq<nat>, bothKinds: bool, threads: nat, run: nat -> World)
    requires Paired(mealOf, customerOf) && threads >= 1
    requires Schedule(Init(mealOf, customerOf, bothKinds, threads), run)
    ensures FairToCarriers(run) <==> exists end: nat :: AllGone(run(end))
    ensures FairToCarriers(run) ==> exists end: nat :: AllGone(run(end)) && Served(run(end))
  {
    hide FairToCarriers, AllGone, Schedule, Served, Inv, StatsOk;
    var first := Init(mealOf, customerOf, bothKinds, threads);
    InitInv(mealOf, customerOf, bothKinds, threads);
    InitStats(mealOf, customerOf, bothKinds, threads);
    if FairToCarriers(run) {
      EveryFairScheduleServes(mealOf, customerOf, bothKinds, threads, run);
    }
    forall end: nat | AllGone(run(end)) ensures FairToCarriers(run) {
      ReturningIsFair(first, run, end);
    }
  }

  // ---------------------------------------------------------------- an unfair schedule

  /** Two drivers and one pair, with the pick-ups of its customer, by driver 0. */
  function Pair(d0: Driver, d1: Driver, request: Holder, customer: Holder, pos: nat, picked: nat): World {
    World([0], [0], false, Locks(request, [customer]), Cursors(false, pos, 0, false, false),
          Counters([picked], [0], [0], [0]), [Stats(picked, 0, 0, 0), Stats(0, 0, 0, 0)], [d0, d1])
  }

  /** Driver 0 picks the customer up and is then held up; driver 1 asks for a request again and again. */
  function Phase(j: nat): World {
    var r := Request(true, 0);
    match j
    case 0 => Pair(Ask, Ask, Nobody, Nobody, 0, 0)
    case 1 => Pair(Choose, Ask, Held(0), Nobody, 0, 0)
    case 2 => Pair(Enter(true), Ask, Held(0), Nobody, 0, 0)
    case 3 => Pair(Scan(true), Ask, Held(0), Nobody, 0, 0)
    case 4 => Pair(CheckCustomer(r), Ask, Nobody, Nobody, 1, 0)
    case 5 => Pair(TakeLock(r), Ask, Nobody, Nobody, 1, 0)
    case 6 => Pair(TestOwn(r), Ask, Nobody, Held(0), 1, 0)
    case 7 => Pair(TestOther(r), Ask, Nobody, Held(0), 1, 0)
    case 8 => Pair(PickUp(r), Ask, Nobody, Held(0), 1, 0)
    case 9 => Pair(UnlockAndGo(r), Ask, Nobody, Held(0), 1, 1)
    case 10 => Pair(DropFirst(r), Ask, Nobody, Nobody, 1, 1)
    case 11 => Pair(DropFirst(r), Choose, Held(1), Nobody, 1, 1)
    case 12 => Pair(DropFirst(r), Enter(true), Held(1), Nobody, 1, 1)
    case 13 => Pair(DropFirst(r), Scan(true), Held(1), Nobody, 0, 1)
    case 14 => Pair(DropFirst(r), CheckCustomer(r), Nobody, Nobody, 1, 1)
    case 15 => Pair(DropFirst(r), CheckMeal(r), Nobody, Nobody, 1, 1)
    case 16 => Pair(DropFirst(r), TakeLock(r), Nobody, Nobody, 1, 1)
    case 17 => Pair(DropFirst(r), TestOwn(r), Nobody, Held(1), 1, 1)
    case _ => Pair(DropFirst(r), UnlockOnly(r), Nobody, Held(1), 1, 1)
  }

  /** The phase at moment k. */
  function PhaseAt(k: nat): (j: nat)
    ensures j <= 18 && (k >= 10 ==> j >= 10)
  {
    if k < 10 then k else 10 + (k - 10) % 9
  }

  lemma NextPhase(k: nat)
    ensures PhaseAt(k + 1) == if PhaseAt(k) == 18 then 10 else PhaseAt(k) + 1
  {}

  lemma AskingPhases(j: nat)
    requires j < 4
    ensures Step(Phase(j), Phase(j + 1), 0, true)
  {
    if j == 0 {} else if j == 1 {} else if j == 2 {} else {}
  }

  lemma CheckingPhases(j: nat)
    requires 4 <= j < 7
    ensures Step(Phase(j), Phase(j + 1), 0, true)
  {
    if j == 4 {} else if j == 5 {} else {}
  }

  lemma PickingPhases(j: nat)
    requires 7 <= j < 10
    ensures Step(Phase(j), Phase(j + 1), 0, true)
  {
    if j == 7 {} else if j == 8 {} else {}
  }

  lemma AskingAgain(j: nat)
    requires 10 <= j < 14
    ensures Step(Phase(j), Phase(j + 1), 1, true)
  {
    if j == 10 {} else if j == 11 {} else if j == 12 {} else {}
  }

  lemma CheckingAgain(j: nat)
    requires 14 <= j < 17
    ensures Step(Phase(j), Phase(j + 1), 1, true)
  {
    if j == 14 {} else if j == 15 {} else {}
  }

  lemma LeavingAgain(j: nat)
    requires 17 <= j <= 18
    ensures Step(Phase(j), Phase(if j == 18 then 10 else j + 1), 1, true)
  {
    if j == 17 {} else {}
  }

  /** Each phase is a step of driver 0 or of driver 1 from the one before. */
  lemma PhaseMoves(j: nat)
    requires j <= 18
    ensures Moves(Phase(j), Phase(if j == 18 then 10 else j + 1))
  {
    hide Step, Phase;
    if j < 4 {
      AskingPhases(j);
    } else if j < 7 {
      CheckingPhases(j);
    } else if j < 10 {
      PickingPhases(j);
    } else if j < 14 {
      AskingAgain(j);
    } else if j < 17 {
      CheckingAgain(j);
    } else {
      LeavingAgain(j);
    }
  }

  lemma PhaseDrivers(j: nat)
    ensures |Phase(j).drivers| == 2 && !Phase(j).drivers[0].Gone?
    ensures j >= 10 ==> Phase(j).drivers[0] == DropFirst(Request(true, 0))
  {}

  lemma {:induction false} UnderWayMoves(s: World, t: World, r: Request)
    requires |s.drivers| > 0 && s.drivers[0] == DropFirst(r) && StepOf(s, t, 0)
    ensures |t.drivers| > 0 && t.drivers[0] == DropSecond(r)
  {
    hide NextLocks, NextCursors, NextCounters, NextStats;
  }

  /** The schedule of the phases. */
  ghost function HoldingUp(): nat -> World { (k: nat) => Phase(PhaseAt(k)) }

  lemma HoldingUpSchedule()
    ensures Schedule(Init([0], [0], false, 2), HoldingUp())
  {
    hide Step, Phase;
    assert Phase(0) == Init([0], [0], false, 2) by {
      StartsAsPhase();
    }
    forall k: nat ensures GoesAt(HoldingUp(), k) {
      NextPhase(k);
      PhaseMoves(PhaseAt(k));
    }
  }

  lemma StartsAsPhase()
    ensures Phase(0) == Init([0], [0], false, 2)
  {
    assert Zeros(1) == [0];
  }

  /** There is a schedule that is not fair, in which the drivers never all return. */
  lemma UnfairSchedule() returns (run: nat -> World)
    ensures Schedule(Init([0], [0], false, 2), run) && !FairToCarriers(run)
    ensures forall k: nat :: !AllGone(run(k))
  {
    hide Step, Phase, Init, Schedule;
    run := HoldingUp();
    HoldingUpSchedule();
    PhaseDrivers(PhaseAt(10));
    forall j: nat | j >= 10 ensures !StepsAt(run, 0, j) {
      PhaseDrivers(PhaseAt(j));
      PhaseDrivers(PhaseAt(j + 1));
      if StepsAt(run, 0, j) {
        UnderWayMoves(run(j), run(j + 1), Request(true, 0));
        assert false;
      }
    }
    assert CarryRank(run(10).drivers[0]) > 0;
    forall k: nat ensures !AllGone(run(k)) {
      PhaseDrivers(PhaseAt(k));
    }
  }
}
