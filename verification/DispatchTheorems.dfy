/**
 * What the dispatcher protocol guarantees: requests are conserved and served in order, no
 * reachable state is stuck before every thread has finished, and every schedule ends with
 * every request driven exactly once.
 */
module DispatchTheorems {
  import opened CircularQueue
  import opened Dispatch
  import opened DispatchInvariant

  /** The dispatcher thread and every driver thread have returned. */
  ghost predicate AllFinished(s: World) {
    s.dp == Finished && forall i :: 0 <= i < |s.drivers| ==> s.drivers[i] == Gone
  }

  // ---------------------------------------------------------------- conservation

  /** Requests popped and not counted as done. */
  function Held(s: World): nat { Sum(s.drivers, Carries) }

  /**
   * In every reachable state, spurious wakeups included: each request announced is done, held,
   * queued or about to be pushed; requests are popped in the order they were dispatched and none is
   * driven more often than it was popped; once the exit flag is set nothing is queued or in flight.
   */
  lemma Conservation(rs: seq<Request>, n: nat, s: World)
    requires n >= 1 && Reachable(rs, n, s)
    ensures s.total == s.done + |s.queue| + Held(s) + if Announced(s.dp) then 1 else 0
    ensures s.popped + s.queue <= rs && |s.queue| <= MAX_QUEUE_SIZE
    ensures multiset(s.driven) <= multiset(s.popped)
    ensures s.exitDrivers ==> s.queue == [] && Held(s) == 0 && s.popped == rs && s.done == |rs|
  {
    ReachableInv(rs, n, s);
    hide WakeInv, LockInv;
    assert |s.popped + s.queue| == s.next;
    forall r ensures multiset(s.driven)[r] <= multiset(s.popped)[r] {
      assert multiset(s.driven)[r] + Owed(s.drivers, r) == multiset(s.popped)[r];
    }
    if s.exitDrivers {
      AllCounted(rs, s);
      assert rs[..s.next] == rs;
    }
  }

  /** A reachable step leaves the pushed, popped and queued requests alone once the queue was freed. */
  lemma FreedOnce(rs: seq<Request>, n: nat, s: World, t: World)
    requires n >= 1 && Reachable(rs, n, s) && Step(rs, s, t)
    ensures s.frees <= t.frees <= 1
    ensures s.frees == 1 ==> s.queue == [] && t.queue == s.queue && t.popped == s.popped && t.next == s.next
  {
    ReachableInv(rs, n, s);
    hide WakeInv, LockInv;
    if s.frees == 1 {
      AllCounted(rs, s);
    }
    if DispatcherStep(rs, s, t) {
      DispatcherWakes(rs, s, t);
    } else {
      hide DispatcherStep;
      var i: nat :| DriverStep(s, t, i);
      DriverFrame(s, t, i);
      DriverData(s, t, i);
      assert DriverInv(s, s.drivers[i]);
    }
  }

  /**
   * When all threads have returned, the queue was freed exactly if the last ride was counted after
   * dispatch_done was set.
   */
  lemma FreedExactly(rs: seq<Request>, n: nat, s: World)
    requires n >= 1 && Reachable(rs, n, s) && AllFinished(s)
    ensures s.frees == 1 <==> s.late
  {
    ReachableInv(rs, n, s);
    hide WakeInv, LockInv, LedgerInv, OrderInv;
  }

  // ---------------------------------------------------------------- no deadlock

  /** Some thread can execute a statement, without any spurious wakeup. */
  ghost predicate CanStep(rs: seq<Request>, s: World) { exists t :: Step(rs, s, t) }

  lemma ReadyDriverSteps(rs: seq<Request>, s: World, i: nat)
    requires i < |s.drivers| && DriverReady(s, i)
    ensures CanStep(rs, s)
  {
    assert DriverStep(s, DriverNext(s, i), i);
    assert Step(rs, s, DriverNext(s, i));
  }

  lemma ReadyDispatcherSteps(rs: seq<Request>, s: World)
    requires DispatcherReady(rs, s)
    ensures CanStep(rs, s)
  {
    var es := WakeAll(s.drivers);
    assert Signalled(s.drivers, es) by {
      if exists i :: 0 <= i < |s.drivers| && s.drivers[i] == Sleeping {
        var i :| 0 <= i < |s.drivers| && s.drivers[i] == Sleeping;
        assert es[i] == Woken;
      }
    }
    WakeAllSame(s, es);
    var t := DispatcherNext(rs, s, es);
    assert t == DispatcherNext(rs, s, t.drivers);
    assert Step(rs, s, t);
  }

  lemma WakeAllSame(s: World, es: seq<Driver>)
    ensures forall rs | DispatcherReady(rs, s) ::
      var t := DispatcherNext(rs, s, es); t == DispatcherNext(rs, s, t.drivers)
  {}

  /** With the lock free and every driver asleep or gone, the dispatcher is not asleep either. */
  lemma NobodyAsleepForever(rs: seq<Request>, n: nat, s: World)
    requires Inv(rs, n, s) && !SomeAwake(s.drivers) && s.dp != Signalling
    ensures s.dp != SleepingFull && s.dp != SleepingDone
    ensures s.dp == Finished ==> AllFinished(s)
  {
    hide LockInv, FlagInv;
    forall i | 0 <= i < n ensures !Awake(s.drivers[i]) && Carries(s.drivers[i]) == 0 {}
    SumZero(s.drivers, Carries);
    assert |s.popped + s.queue| == s.next;
  }

  /** Deadlock freedom: until every thread has returned, some thread can step. */
  lemma NoDeadlock(rs: seq<Request>, n: nat, s: World)
    requires n >= 1 && Reachable(rs, n, s) && !AllFinished(s)
    ensures CanStep(rs, s)
  {
    ReachableInv(rs, n, s);
    hide AllFinished, CanStep, Reachable;
    InvSteps(rs, n, s);
  }

  lemma InvSteps(rs: seq<Request>, n: nat, s: World)
    requires Inv(rs, n, s) && !AllFinished(s)
    ensures CanStep(rs, s)
  {
    hide AllFinished, CanStep, WakeInv, FlagInv, LedgerInv;
    if DispatcherReady(rs, s) {
      ReadyDispatcherSteps(rs, s);
    } else if exists i :: 0 <= i < n && DriverReady(s, i) {
      var i :| 0 <= i < n && DriverReady(s, i);
      ReadyDriverSteps(rs, s, i);
    } else {
      assert !SomeAwake(s.drivers) && s.dp != Signalling by {
        forall i | 0 <= i < n ensures !Awake(s.drivers[i]) {
          assert !DriverReady(s, i) && DriverInv(s, s.drivers[i]);
          HolderSteps(rs, n, s, i);
        }
      }
      NobodyAsleepForever(rs, n, s);
      HolderSteps(rs, n, s, 0);
    }
  }

  /** If no thread can step, nobody holds the lock. */
  lemma HolderSteps(rs: seq<Request>, n: nat, s: World, k: nat)
    requires Inv(rs, n, s) && !DispatcherReady(rs, s) && forall i :: 0 <= i < n ==> !DriverReady(s, i)
    requires k < n
    ensures s.lock == Nobody && !Awake(s.drivers[k])
  {
    hide WakeInv, FlagInv, LedgerInv;
    forall i | 0 <= i < n ensures !DriverHolds(s.drivers[i]) {
      assert DriverInv(s, s.drivers[i]) && !DriverReady(s, i);
    }
    assert DriverInv(s, s.drivers[k]) && !DriverReady(s, k);
  }

  // ---------------------------------------------------------------- every schedule ends

  /** A signal still to be sent. */
  function Late(d: Driver): nat { if d.SignalFull? || d.SignalDone? then 1 else 0 }

  /** The statements a driver can still execute without taking a request. */
  function DriverRank(d: Driver): nat {
    match d
    case UnlockToDrive(_) => 14 case Driving(_) => 13 case Relock(_) => 12 case CountRide(_) => 11
    case CheckLast => 10 case FreeQueue => 9 case UnlockAndLoop => 8 case AtLock => 7 case Woken => 6
    case CheckQueue => 5 case Deciding => 4 case Popping => 3 case SignalFull(_) => 2 case SignalDone => 2
    case UnlockAndExit => 1 case Sleeping => 0 case Gone => 0
  }

  function DispatcherRank(d: Dispatcher): nat {
    match d
    case Signalling => 11 case Leaving => 10 case Reading => 9 case Entering => 8 case Counting => 7 case WokenFull => 6
    case Checking => 5 case Pushing => 4 case SleepingFull => 0
    case Finishing => 8 case SettingDone => 7 case WokenDone => 6 case CheckingDone => 5 case SettingExit => 4
    case Broadcasting => 3 case Quitting => 2 case Finished => 1 case SleepingDone => 0
  }

  /** Pops, frees and signals by drivers still to come. */
  function Signals(rs: seq<Request>, s: World): int {
    2 * (|rs| - |s.popped|) + 2 * (1 - s.frees) + Sum(s.drivers, Late)
  }

  /** What the dispatcher still has to do. */
  function ToDispatch(rs: seq<Request>, s: World): int { 20 * (|rs| - s.next) + DispatcherRank(s.dp) }

  function ToDrive(s: World): nat { Sum(s.drivers, DriverRank) }

  lemma RanksBounded(rs: seq<Request>, n: nat, s: World)
    requires Inv(rs, n, s)
    ensures Signals(rs, s) >= 0 && ToDispatch(rs, s) >= 0
  {
    hide WakeInv, LockInv, LedgerInv;
    assert |s.popped + s.queue| == s.next;
  }

  /** The dispatcher only moves forward, and signals nothing to itself. */
  lemma DispatcherDescends(rs: seq<Request>, s: World, t: World)
    requires DispatcherStep(rs, s, t)
    ensures Signals(rs, t) == Signals(rs, s) && ToDispatch(rs, t) < ToDispatch(rs, s)
  {
    hide Sum, Late;
    DispatcherWakes(rs, s, t);
    assert Sum(t.drivers, Late) == Sum(s.drivers, Late) by {
      hide DispatcherStep;
      WakingLate(s.drivers, t.drivers);
    }
  }

  lemma WakingLate(ds: seq<Driver>, es: seq<Driver>)
    requires |es| == |ds| && forall i :: 0 <= i < |ds| ==> MaybeWoken(ds[i], es[i])
    ensures Sum(es, Late) == Sum(ds, Late)
  {
    forall i | 0 <= i < |ds| ensures Late(es[i]) == Late(ds[i]) {
      assert MaybeWoken(ds[i], es[i]);
    }
    SumSame(es, ds, Late);
  }

  /** A driver's statement either pops, frees or signals, or brings the driver closer to sleep or its next pop. */
  lemma DriverDescends(rs: seq<Request>, s: World, t: World, i: nat)
    requires DriverStep(s, t, i)
    ensures || Signals(rs, t) < Signals(rs, s)
            || (Signals(rs, t) == Signals(rs, s) && ToDispatch(rs, t) == ToDispatch(rs, s) && ToDrive(t) < ToDrive(s))
  {
    var d := DriverGoto(s, i);
    DriverFrame(s, t, i);
    DriverData(s, t, i);
    SumMove(s.drivers, Late, i, d);
    SumMove(s.drivers, DriverRank, i, d);
    GotoDescends(s, i);
    if s.drivers[i].Popping? {
      assert |t.popped| == |s.popped| + 1;
    }
    hide DriverStep, DriverGoto, Sum, Late, DriverRank;
  }

  lemma GotoDescends(s: World, i: nat)
    requires i < |s.drivers| && DriverReady(s, i)
    ensures var d, e := s.drivers[i], DriverGoto(s, i);
      if d.Popping? || d.FreeQueue? then Late(d) == 0 && Late(e) == 1
      else if d.SignalFull? || d.SignalDone? then Late(d) == 1 && Late(e) == 0
      else Late(d) == 0 && Late(e) == 0 && DriverRank(e) < DriverRank(d)
  {}

  /** A schedule: each moment one statement of one thread, or a spurious wakeup, or nothing if no thread can step. */
  ghost predicate Schedule(rs: seq<Request>, n: nat, run: nat -> World) {
    && run(0) == Init(n)
    && forall k: nat ::
         || Step(rs, run(k), run(k + 1))
         || SpuriousWakeup(run(k), run(k + 1))
         || (!CanStep(rs, run(k)) && run(k + 1) == run(k))
  }

  lemma {:induction false} ScheduleInv(rs: seq<Request>, n: nat, run: nat -> World, k: nat)
    requires n >= 1 && Schedule(rs, n, run)
    ensures Inv(rs, n, run(k))
  {
    hide Inv, CanStep;
    if k == 0 {
      InitInv(rs, n);
    } else {
      ScheduleInv(rs, n, run, k - 1);
      var s, t := run(k - 1), run(k - 1 + 1);
      if SpuriousWakeup(s, t) {
        SpuriousInv(rs, n, s, t);
      } else if DispatcherStep(rs, s, t) {
        DispatcherStepInv(rs, n, s, t);
      } else if Step(rs, s, t) {
        var i :| DriverStep(s, t, i);
        DriverStepInv(rs, n, s, t, i);
      }
    }
  }

  /** From moment k on there are no spurious wakeups, so the ranks fall until every thread has returned. */
  lemma {:induction false} Quiesces(rs: seq<Request>, n: nat, run: nat -> World, k: nat) returns (end: nat)
    requires n >= 1 && Schedule(rs, n, run)
    requires forall j: nat :: j >= k ==> !SpuriousWakeup(run(j), run(j + 1))
    ensures end >= k && AllFinished(run(end))
    decreases Signals(rs, run(k)), ToDispatch(rs, run(k)), ToDrive(run(k))
  {
    hide Inv, SpuriousWakeup, CanStep, AllFinished, Signals, ToDispatch, ToDrive;
    ScheduleInv(rs, n, run, k);
    if AllFinished(run(k)) {
      return k;
    }
    InvSteps(rs, n, run(k));
    var s, t := run(k), run(k + 1);
    assert Step(rs, s, t);
    RanksBounded(rs, n, s);
    if DispatcherStep(rs, s, t) {
      DispatcherDescends(rs, s, t);
    } else {
      var i :| DriverStep(s, t, i);
      DriverDescends(rs, s, t, i);
    }
    end := Quiesces(rs, n, run, k + 1);
  }

  /** Once all threads have returned, every request was popped in order and driven exactly once. */
  lemma ServedExactlyOnce(rs: seq<Request>, n: nat, s: World)
    requires Inv(rs, n, s) && AllFinished(s)
    ensures s.popped == rs && multiset(s.driven) == multiset(rs) && s.done == s.total == |rs| && s.queue == []
  {
    hide WakeInv, LockInv;
    AllCounted(rs, s);
    assert rs[..s.next] == rs;
    forall r ensures multiset(s.driven)[r] == multiset(s.popped)[r] {
      OwedNone(s.drivers, r);
      assert multiset(s.driven)[r] + Owed(s.drivers, r) == multiset(s.popped)[r];
    }
  }

  /**
   * Every schedule with finitely many spurious wakeups, however unfair, reaches a state where all
   * threads have returned, every request has been driven exactly once.
   */
  lemma EveryScheduleServesAll(rs: seq<Request>, n: nat, run: nat -> World, quiet: nat)
    requires n >= 1 && Schedule(rs, n, run)
    requires forall j: nat :: j >= quiet ==> !SpuriousWakeup(run(j), run(j + 1))
    ensures exists end: nat ::
      AllFinished(run(end)) && run(end).popped == rs && multiset(run(end).driven) == multiset(rs)
          && run(end).done == |rs|
  {
    var end := Quiesces(rs, n, run, quiet);
    ScheduleInv(rs, n, run, end);
    hide Inv, AllFinished, Schedule, SpuriousWakeup;
    ServedExactlyOnce(rs, n, run(end));
  }
}
