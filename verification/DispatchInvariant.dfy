/**
 * Every step of the dispatcher, of a driver, and every spurious wakeup keeps the protocol's
 * invariant.
 */
module DispatchInvariant {
  import opened CircularQueue
  import opened Dispatch

  // ---------------------------------------------------------------- driver steps

  /** What a step of driver i leaves alone, and the few statements that touch shared data. */
  lemma DriverFrame(s: World, t: World, i: nat)
    requires DriverStep(s, t, i)
    ensures i < |s.drivers| && |t.drivers| == |s.drivers| && t.drivers == s.drivers[i := DriverGoto(s, i)]
    ensures t.next == s.next && t.total == s.total && t.dispatchDone == s.dispatchDone && t.exitDrivers == s.exitDrivers
    ensures t.dp == (if s.drivers[i].SignalFull? && s.dp == SleepingFull then WokenFull
                     else if s.drivers[i].SignalDone? && s.dp == SleepingDone then WokenDone else s.dp)
  {
    hide DriverGoto;
  }

  lemma DriverData(s: World, t: World, i: nat)
    requires DriverStep(s, t, i)
    ensures !s.drivers[i].Popping? ==> t.queue == s.queue && t.popped == s.popped
    ensures !s.drivers[i].Driving? ==> t.driven == s.driven
    ensures t.done == if s.drivers[i].CountRide? then s.done + 1 else s.done
    ensures t.frees == if s.drivers[i].FreeQueue? then s.frees + 1 else s.frees
    ensures t.late == if s.drivers[i].CountRide? then s.dispatchDone else s.late
  {
    hide DriverGoto;
  }

  lemma DriverLoads(s: World, t: World, i: nat, r: Request)
    requires DriverStep(s, t, i) && !s.drivers[i].Popping?
    ensures |t.drivers| == |s.drivers|
    ensures !s.drivers[i].CountRide? ==> Carries(t.drivers[i]) == Carries(s.drivers[i])
    ensures !s.drivers[i].Driving? ==> Owes(t.drivers[i], r) == Owes(s.drivers[i], r)
  {}

  /** How moving driver i changes the two counts. */
  lemma MoveCounts(s: World, i: nat, d: Driver)
    requires i < |s.drivers|
    ensures Sum(s.drivers[i := d], Carries) + Carries(s.drivers[i]) == Sum(s.drivers, Carries) + Carries(d)
    ensures forall r :: Owed(s.drivers[i := d], r) + Owes(s.drivers[i], r) == Owed(s.drivers, r) + Owes(d, r)
    ensures Sum(s.drivers, Carries) >= Carries(s.drivers[i])
  {
    SumMove(s.drivers, Carries, i, d);
    forall r ensures Owed(s.drivers[i := d], r) + Owes(s.drivers[i], r) == Owed(s.drivers, r) + Owes(d, r) {
      OwedMove(s.drivers, i, d, r);
    }
    SumPositive(s.drivers, Carries, i);
  }

  lemma DriverLock(rs: seq<Request>, n: nat, s: World, t: World, i: nat)
    requires Inv(rs, n, s) && DriverStep(s, t, i)
    ensures |t.drivers| == n && LockInv(t)
    ensures forall j :: 0 <= j < n && j != i ==> t.drivers[j] == s.drivers[j]
  {
    hide FreedInv, OrderInv, LedgerInv, WakeInv, FlagInv, DriverInv;
  }

  /** Nothing is left to do once all rides are counted. */
  lemma AllCounted(rs: seq<Request>, s: World)
    requires OrderInv(rs, s) && LedgerInv(s) && s.total == s.done
    ensures s.queue == [] && Sum(s.drivers, Carries) == 0 && |s.popped| == s.done && s.next == |s.popped|
    ensures !Announced(s.dp)
  {
    assert |s.popped + s.queue| == s.next;
  }

  /** A driver with a request means a ride not yet counted. */
  lemma CarrierUncounted(rs: seq<Request>, s: World, i: nat)
    requires OrderInv(rs, s) && LedgerInv(s) && i < |s.drivers| && Carries(s.drivers[i]) == 1
    ensures s.done < s.total
  {
    SumPositive(s.drivers, Carries, i);
    assert |s.popped + s.queue| == s.next;
  }

  lemma DriverOrder(rs: seq<Request>, s: World, t: World, i: nat)
    requires OrderInv(rs, s) && DriverStep(s, t, i)
    ensures OrderInv(rs, t)
  {
    hide DriverGoto;
    if s.drivers[i].Popping? {
      assert t.popped + t.queue == s.popped + s.queue;
    } else {
      hide DriverEffect;
      DriverFrame(s, t, i);
      DriverData(s, t, i);
    }
  }

  lemma DriverLedger(s: World, t: World, i: nat)
    requires LedgerInv(s) && DriverStep(s, t, i)
    ensures LedgerInv(t)
  {
    hide DriverNext;
    DriverFrame(s, t, i);
    DriverData(s, t, i);
    MoveCounts(s, i, DriverGoto(s, i));
    if s.drivers[i].Popping? {
      PopLedger(s, t, i);
    } else if s.drivers[i].Driving? {
      DriveLedger(s, t, i);
    } else {
      hide Carries, Owes;
      forall r ensures Owes(t.drivers[i], r) == Owes(s.drivers[i], r) {
        DriverLoads(s, t, i, r);
      }
    }
  }

  lemma PopLedger(s: World, t: World, i: nat)
    requires LedgerInv(s) && DriverStep(s, t, i) && s.drivers[i].Popping?
    ensures LedgerInv(t)
  {
    var r := s.queue[0];
    assert t.popped == s.popped + [r] && t.driven == s.driven && t.done == s.done;
    assert t.drivers == s.drivers[i := SignalFull(r)];
    MoveCounts(s, i, SignalFull(r));
    hide DriverStep, DriverNext;
    forall q ensures multiset(t.driven)[q] + Owed(t.drivers, q) == multiset(t.popped)[q] {
      CountAppend(s.popped, r, q);
      assert multiset(s.driven)[q] + Owed(s.drivers, q) == multiset(s.popped)[q];
    }
  }

  lemma DriveLedger(s: World, t: World, i: nat)
    requires LedgerInv(s) && DriverStep(s, t, i) && s.drivers[i].Driving?
    ensures LedgerInv(t)
  {
    var r := s.drivers[i].req;
    assert t.popped == s.popped && t.driven == s.driven + [r] && t.done == s.done;
    assert t.drivers == s.drivers[i := Relock(r)];
    MoveCounts(s, i, Relock(r));
    hide DriverStep, DriverNext;
    forall q ensures multiset(t.driven)[q] + Owed(t.drivers, q) == multiset(t.popped)[q] {
      CountAppend(s.driven, r, q);
      assert multiset(s.driven)[q] + Owed(s.drivers, q) == multiset(s.popped)[q];
    }
  }

  lemma CountAppend(rs: seq<Request>, r: Request, q: Request)
    ensures multiset(rs + [r])[q] == multiset(rs)[q] + if q == r then 1 else 0
  {
    assert multiset(rs + [r]) == multiset(rs) + multiset{r};
  }

  /** The driver that moved. */
  lemma MovedDriver(rs: seq<Request>, s: World, t: World, i: nat)
    requires DriverStep(s, t, i) && DriverInv(s, s.drivers[i]) && FlagInv(s) && OrderInv(rs, s) && LedgerInv(s)
    ensures DriverInv(t, t.drivers[i]) && FlagInv(t)
  {
    hide DriverEffect, OrderInv, LedgerInv;
    DriverFrame(s, t, i);
    DriverData(s, t, i);
    if s.drivers[i].CountRide? {
      CarrierUncounted(rs, s, i);
    }
  }

  lemma DriverFlags(rs: seq<Request>, n: nat, s: World, t: World, i: nat)
    requires Inv(rs, n, s) && DriverStep(s, t, i)
    ensures FlagInv(t)
    ensures |t.drivers| == n && forall j :: 0 <= j < n ==> DriverInv(t, t.drivers[j])
  {
    hide FreedInv, WakeInv, OrderInv, LedgerInv, DriverNext, FlagInv;
    DriverFrame(s, t, i);
    DriverData(s, t, i);
    DriverMutex(rs, n, s, t, i);
    MovedDriver(rs, s, t, i);
    if s.drivers[i].CountRide? {
      CarrierUncounted(rs, s, i);
    }
    forall j | 0 <= j < n ensures DriverInv(t, t.drivers[j]) {
      assert DriverInv(s, s.drivers[j]);
    }
  }

  /** A step that pops, counts or frees is taken by the one driver that holds the lock. */
  lemma DriverMutex(rs: seq<Request>, n: nat, s: World, t: World, i: nat)
    requires Inv(rs, n, s) && DriverStep(s, t, i)
    ensures s.drivers[i].Popping? || s.drivers[i].CountRide? || s.drivers[i].FreeQueue? ==>
              forall j :: 0 <= j < n && j != i ==> !DriverHolds(s.drivers[j])
  {
    hide FreedInv, WakeInv, OrderInv, LedgerInv, DriverInv, FlagInv;
  }

  lemma DriverWake(rs: seq<Request>, n: nat, s: World, t: World, i: nat)
    requires Inv(rs, n, s) && DriverStep(s, t, i)
    ensures WakeInv(t)
  {
    hide FreedInv, OrderInv, LedgerInv, FlagInv, LockInv, DriverNext;
    DriverFrame(s, t, i);
    DriverData(s, t, i);
    MovedAwake(rs, s, t, i);
    if t.queue != [] && Awake(t.drivers[i]) {
      assert SomeAwake(t.drivers);
    }
    if t.dp == SleepingFull {
      if s.drivers[i].Popping? {
        assert t.drivers[i].SignalFull?;
      } else if |s.queue| != MAX_QUEUE_SIZE {
        var k :| 0 <= k < n && s.drivers[k].SignalFull?;
        assert t.drivers[k].SignalFull?;
      }
    }
    if t.dp == SleepingDone {
      if s.drivers[i].CountRide? {
        assert t.drivers[i] == CheckLast;
      } else if s.total == s.done {
        var k :| 0 <= k < n && (s.drivers[k].CheckLast? || s.drivers[k].FreeQueue? || s.drivers[k].SignalDone?);
        assert (t.drivers[k].CheckLast? || t.drivers[k].FreeQueue? || t.drivers[k].SignalDone?);
      }
    }
  }

  /** The driver that moved is awake, unless the queue is empty; it sleeps only before the exit flag is set. */
  lemma MovedAwake(rs: seq<Request>, s: World, t: World, i: nat)
    requires DriverStep(s, t, i) && OrderInv(rs, s) && LedgerInv(s) && FlagInv(s) && DriverInv(s, s.drivers[i])
    ensures t.queue != [] ==> Awake(t.drivers[i])
    ensures t.drivers[i] == Sleeping ==> !s.exitDrivers && !(s.dp.Quitting? || s.dp.Finished?)
    ensures s.drivers[i].Popping? ==> t.drivers[i].SignalFull?
    ensures s.drivers[i].CountRide? ==> t.drivers[i] == CheckLast
    ensures s.drivers[i] == CheckLast && s.dp == SleepingDone && s.total == s.done ==> t.drivers[i] == FreeQueue
    ensures s.drivers[i] == FreeQueue ==> t.drivers[i] == SignalDone
  {
    if s.drivers[i] == UnlockAndExit {
      AllCounted(rs, s);
    }
  }

  lemma DriverFreed(rs: seq<Request>, n: nat, s: World, t: World, i: nat)
    requires Inv(rs, n, s) && DriverStep(s, t, i)
    ensures FreedInv(t)
  {
    hide LedgerInv, OrderInv, WakeInv, LockInv, DriverNext;
    DriverFrame(s, t, i);
    DriverData(s, t, i);
    DriverMutex(rs, n, s, t, i);
    FreedMove(s, i);
    if s.drivers[i].CountRide? {
      CarrierUncounted(rs, s, i);
      assert t.drivers[i].CheckLast?;
    } else if s.late && s.done == s.total && s.frees == 0 {
      var k :| 0 <= k < n && (s.drivers[k].CheckLast? || s.drivers[k].FreeQueue?);
      assert t.drivers[k] == if k == i then DriverGoto(s, i) else s.drivers[k];
    }
    forall j | 0 <= j < n ensures t.drivers[j] == if j == i then DriverGoto(s, i) else s.drivers[j] {}
    if t.frees == 1 {
      if s.frees == 1 {
        var k :| 0 <= k < n && Freeing(s.drivers[k]);
        assert Freeing(t.drivers[k]);
      } else {
        assert Freeing(t.drivers[i]);
      }
    }
  }

  /** Where a driver at the check after its ride goes. */
  lemma FreedMove(s: World, i: nat)
    requires i < |s.drivers| && DriverReady(s, i)
    ensures DriverGoto(s, i).CheckLast? <==> s.drivers[i].CountRide?
    ensures DriverGoto(s, i).FreeQueue? <==> s.drivers[i].CheckLast? && s.dispatchDone && s.done == s.total
    ensures Freeing(s.drivers[i]) || s.drivers[i].FreeQueue? ==> Freeing(DriverGoto(s, i))
  {}

  lemma DispatcherFreed(rs: seq<Request>, n: nat, s: World, t: World)
    requires Inv(rs, n, s) && DispatcherStep(rs, s, t)
    ensures FreedInv(t)
  {
    hide LedgerInv, OrderInv, WakeInv, Signalled;
    DispatcherWakes(rs, s, t);
    WakingKeeps(s.drivers, t.drivers);
    hide MaybeWoken;
    if s.frees == 1 {
      var k :| 0 <= k < n && Freeing(s.drivers[k]);
      assert Freeing(t.drivers[k]);
    }
    if s.dp == SettingDone {
      forall j | 0 <= j < n ensures !s.drivers[j].CheckLast? {
        assert !DriverHolds(s.drivers[j]);
      }
    }
  }

  /** Waking moves no driver that is after its ride. */
  lemma WakingKeeps(ds: seq<Driver>, es: seq<Driver>)
    requires |es| == |ds| && forall i :: 0 <= i < |ds| ==> MaybeWoken(ds[i], es[i])
    ensures forall i :: 0 <= i < |ds| ==>
      (es[i].CheckLast? <==> ds[i].CheckLast?) && (es[i].FreeQueue? <==> ds[i].FreeQueue?)
          && (Freeing(ds[i]) ==> Freeing(es[i]))
  {
    forall i | 0 <= i < |ds|
      ensures (es[i].CheckLast? <==> ds[i].CheckLast?) && (es[i].FreeQueue? <==> ds[i].FreeQueue?)
      ensures Freeing(ds[i]) ==> Freeing(es[i])
    {
      assert MaybeWoken(ds[i], es[i]);
    }
  }

  lemma DriverStepInv(rs: seq<Request>, n: nat, s: World, t: World, i: nat)
    requires Inv(rs, n, s) && DriverStep(s, t, i)
    ensures Inv(rs, n, t)
  {
    hide LockInv, WakeInv, FlagInv, OrderInv, LedgerInv, DriverInv, FreedInv, DriverStep;
    DriverLock(rs, n, s, t, i);
    DriverOrder(rs, s, t, i);
    DriverLedger(s, t, i);
    DriverFlags(rs, n, s, t, i);
    DriverWake(rs, n, s, t, i);
    DriverFreed(rs, n, s, t, i);
  }

  // ---------------------------------------------------------------- dispatcher steps

  /** Waking drivers changes no count and no driver that holds the lock or a request. */
  lemma WakingCounts(ds: seq<Driver>, es: seq<Driver>)
    requires |es| == |ds| && forall i :: 0 <= i < |ds| ==> MaybeWoken(ds[i], es[i])
    ensures Sum(es, Carries) == Sum(ds, Carries) && forall r :: Owed(es, r) == Owed(ds, r)
  {
    forall i | 0 <= i < |ds| ensures Carries(es[i]) == Carries(ds[i]) && forall r :: Owes(es[i], r) == Owes(ds[i], r) {
      assert MaybeWoken(ds[i], es[i]);
    }
    SumSame(es, ds, Carries);
    forall r ensures Owed(es, r) == Owed(ds, r) {
      OwedSame(es, ds, r);
    }
  }

  lemma WakingWakes(ds: seq<Driver>, es: seq<Driver>)
    requires |es| == |ds| && forall i :: 0 <= i < |ds| ==> MaybeWoken(ds[i], es[i])
    ensures forall i :: 0 <= i < |ds| ==> DriverHolds(es[i]) == DriverHolds(ds[i])
    ensures SomeAwake(ds) ==> SomeAwake(es)
  {
    forall i | 0 <= i < |ds| ensures DriverHolds(es[i]) == DriverHolds(ds[i]) {
      assert MaybeWoken(ds[i], es[i]);
    }
    if SomeAwake(ds) {
      var i :| 0 <= i < |ds| && Awake(ds[i]);
      assert MaybeWoken(ds[i], es[i]);
      assert Awake(es[i]);
    }
  }

  lemma DispatcherWakes(rs: seq<Request>, s: World, t: World)
    requires DispatcherStep(rs, s, t)
    ensures |t.drivers| == |s.drivers| && forall i :: 0 <= i < |s.drivers| ==> MaybeWoken(s.drivers[i], t.drivers[i])
    ensures !(s.dp.Signalling? || s.dp.Broadcasting?) ==> t.drivers == s.drivers
    ensures t.popped == s.popped && t.driven == s.driven && t.done == s.done && t.frees == s.frees && t.late == s.late
  {}

  lemma DispatcherLock(rs: seq<Request>, n: nat, s: World, t: World)
    requires Inv(rs, n, s) && DispatcherStep(rs, s, t)
    ensures |t.drivers| == n && LockInv(t)
  {
    hide FreedInv, OrderInv, LedgerInv, WakeInv, FlagInv, DriverInv, Signalled;
    DispatcherWakes(rs, s, t);
    WakingWakes(s.drivers, t.drivers);
    hide MaybeWoken;
    forall i | 0 <= i < n ensures t.lock == TheDriver(i) <==> DriverHolds(t.drivers[i]) {
      assert s.lock == TheDriver(i) <==> DriverHolds(s.drivers[i]);
    }
  }

  lemma DispatcherOrder(rs: seq<Request>, s: World, t: World)
    requires OrderInv(rs, s) && DispatcherStep(rs, s, t)
    ensures OrderInv(rs, t)
  {
    if s.dp == Pushing {
      PushOrder(rs, s, t);
    } else {
      OtherOrder(rs, s, t);
    }
  }

  lemma PushOrder(rs: seq<Request>, s: World, t: World)
    requires OrderInv(rs, s) && DispatcherStep(rs, s, t) && s.dp == Pushing
    ensures OrderInv(rs, t)
  {
    assert rs[..t.next] == rs[..s.next] + [rs[s.next]];
    assert t.popped + t.queue == (s.popped + s.queue) + [rs[s.next]];
  }

  lemma OtherOrder(rs: seq<Request>, s: World, t: World)
    requires OrderInv(rs, s) && DispatcherStep(rs, s, t) && s.dp != Pushing
    ensures OrderInv(rs, t)
  {
    hide Signalled;
    assert t.queue == s.queue && t.popped == s.popped && t.next == s.next;
  }

  lemma WakingLedger(s: World, t: World)
    requires LedgerInv(s) && t.popped == s.popped && t.driven == s.driven && t.done == s.done
    requires |t.drivers| == |s.drivers| && forall i :: 0 <= i < |s.drivers| ==> MaybeWoken(s.drivers[i], t.drivers[i])
    ensures LedgerInv(t)
  {
    hide MaybeWoken, Carries, Owes;
    WakingCounts(s.drivers, t.drivers);
  }

  lemma DispatcherLedger(rs: seq<Request>, s: World, t: World)
    requires LedgerInv(s) && DispatcherStep(rs, s, t)
    ensures LedgerInv(t)
  {
    DispatcherWakes(rs, s, t);
    hide LedgerInv, DispatcherStep;
    WakingLedger(s, t);
  }

  lemma DispatcherFlags(rs: seq<Request>, n: nat, s: World, t: World)
    requires Inv(rs, n, s) && DispatcherStep(rs, s, t)
    ensures FlagInv(t)
    ensures |t.drivers| == n && forall j :: 0 <= j < n ==> DriverInv(t, t.drivers[j])
  {
    hide FreedInv, WakeInv;
    DispatcherWakes(rs, s, t);
    forall j | 0 <= j < n ensures DriverInv(t, t.drivers[j]) {
      assert DriverInv(s, s.drivers[j]) && MaybeWoken(s.drivers[j], t.drivers[j]);
      if s.dp == SettingExit || s.dp == Pushing {
        assert !DriverHolds(s.drivers[j]);
      }
    }
  }

  lemma DispatcherWake(rs: seq<Request>, n: nat, s: World, t: World)
    requires Inv(rs, n, s) && DispatcherStep(rs, s, t)
    ensures WakeInv(t)
  {
    hide FreedInv, OrderInv, LedgerInv, Signalled;
    DispatcherWakes(rs, s, t);
    WakingWakes(s.drivers, t.drivers);
    if s.dp == Signalling {
      SignalWakesOne(rs, n, s, t);
    }
    if s.dp == SettingExit || s.dp == Broadcasting || s.dp == Quitting || s.dp == Finished {
      AllCounted(rs, s);
    }
  }

  /** After the signal for a push somebody is awake: no driver has left while requests are still read. */
  lemma SignalWakesOne(rs: seq<Request>, n: nat, s: World, t: World)
    requires Inv(rs, n, s) && DispatcherStep(rs, s, t) && s.dp == Signalling
    ensures SomeAwake(t.drivers)
  {
    hide FreedInv, OrderInv, LedgerInv, WakeInv, LockInv;
    if exists i :: 0 <= i < n && s.drivers[i] == Sleeping {
      var i :| 0 <= i < n && s.drivers[i] == Sleeping && t.drivers[i] == Woken;
      assert Awake(t.drivers[i]);
    } else {
      assert DriverInv(s, s.drivers[0]) && MaybeWoken(s.drivers[0], t.drivers[0]);
      assert Awake(t.drivers[0]);
    }
  }

  lemma DispatcherStepInv(rs: seq<Request>, n: nat, s: World, t: World)
    requires Inv(rs, n, s) && DispatcherStep(rs, s, t)
    ensures Inv(rs, n, t)
  {
    hide LockInv, WakeInv, FlagInv, OrderInv, LedgerInv, DriverInv, FreedInv, DispatcherStep;
    DispatcherLock(rs, n, s, t);
    DispatcherOrder(rs, s, t);
    DispatcherLedger(rs, s, t);
    DispatcherFlags(rs, n, s, t);
    DispatcherWake(rs, n, s, t);
    DispatcherFreed(rs, n, s, t);
  }

  // ---------------------------------------------------------------- spurious wakeups

  lemma SpuriousFrame(s: World, t: World)
    requires SpuriousWakeup(s, t)
    ensures |t.drivers| == |s.drivers| && forall i :: 0 <= i < |s.drivers| ==> MaybeWoken(s.drivers[i], t.drivers[i])
    ensures t.popped == s.popped && t.driven == s.driven && t.done == s.done && t.next == s.next && t.queue == s.queue
    ensures t.total == s.total && t.lock == s.lock && t.dispatchDone == s.dispatchDone && t.exitDrivers == s.exitDrivers
    ensures t.frees == s.frees && t.late == s.late
    ensures t.dp == s.dp || (s.dp == SleepingFull && t.dp == WokenFull) || (s.dp == SleepingDone && t.dp == WokenDone)
  {}

  lemma SpuriousInv(rs: seq<Request>, n: nat, s: World, t: World)
    requires Inv(rs, n, s) && SpuriousWakeup(s, t)
    ensures Inv(rs, n, t)
  {
    hide LedgerInv, WakeInv, SpuriousWakeup;
    SpuriousFrame(s, t);
    WakingWakes(s.drivers, t.drivers);
    WakingLedger(s, t);
    SpuriousWake(s, t);
    SpuriousDrivers(s, t);
    WakingKeeps(s.drivers, t.drivers);
    hide MaybeWoken;
    SpuriousFreed(s, t);
    forall i | 0 <= i < n ensures t.lock == TheDriver(i) <==> DriverHolds(t.drivers[i]) {
      assert s.lock == TheDriver(i) <==> DriverHolds(s.drivers[i]);
    }
  }

  lemma SpuriousFreed(s: World, t: World)
    requires FreedInv(s) && |t.drivers| == |s.drivers| && t.frees == s.frees && t.late == s.late && t.done == s.done
    requires t.total == s.total && t.dispatchDone == s.dispatchDone
    requires forall i :: 0 <= i < |s.drivers| ==>
      && (t.drivers[i].CheckLast? <==> s.drivers[i].CheckLast?)
           && (t.drivers[i].FreeQueue? <==> s.drivers[i].FreeQueue?)
      && (Freeing(s.drivers[i]) ==> Freeing(t.drivers[i]))
    ensures FreedInv(t)
  {
    if s.frees == 1 {
      var k :| 0 <= k < |s.drivers| && Freeing(s.drivers[k]);
      assert Freeing(t.drivers[k]);
    }
    if s.late && s.done == s.total && s.frees == 0 {
      var k :| 0 <= k < |s.drivers| && (s.drivers[k].CheckLast? || s.drivers[k].FreeQueue?);
      assert t.drivers[k].CheckLast? || t.drivers[k].FreeQueue?;
    }
  }

  lemma SpuriousDrivers(s: World, t: World)
    requires SpuriousWakeup(s, t) && forall i :: 0 <= i < |s.drivers| ==> DriverInv(s, s.drivers[i])
    ensures |t.drivers| == |s.drivers| && forall i :: 0 <= i < |s.drivers| ==> DriverInv(t, t.drivers[i])
  {
    hide SpuriousWakeup;
    SpuriousFrame(s, t);
    forall i | 0 <= i < |s.drivers| ensures DriverInv(t, t.drivers[i]) {
      assert DriverInv(s, s.drivers[i]) && MaybeWoken(s.drivers[i], t.drivers[i]);
    }
  }

  lemma SpuriousWake(s: World, t: World)
    requires WakeInv(s) && SpuriousWakeup(s, t)
    ensures WakeInv(t)
  {
    hide SpuriousWakeup;
    SpuriousFrame(s, t);
    WakingWakes(s.drivers, t.drivers);
    if t.dp == SleepingFull && |t.queue| != MAX_QUEUE_SIZE {
      var k :| 0 <= k < |s.drivers| && s.drivers[k].SignalFull?;
      assert MaybeWoken(s.drivers[k], t.drivers[k]);
    }
    if t.dp == SleepingDone && t.total == t.done {
      var k :| 0 <= k < |s.drivers| && (s.drivers[k].CheckLast? || s.drivers[k].FreeQueue? || s.drivers[k].SignalDone?);
      assert MaybeWoken(s.drivers[k], t.drivers[k]);
    }
  }

  lemma {:induction false} TraceInv(rs: seq<Request>, n: nat, path: seq<World>)
    requires n >= 1 && Trace(rs, n, path)
    ensures Inv(rs, n, path[|path| - 1])
    decreases |path|
  {
    if |path| == 1 {
      InitInv(rs, n);
    } else {
      hide Inv;
      var before := path[..|path| - 1];
      TraceInv(rs, n, before);
      var s, t := path[|path| - 2], path[|path| - 1];
      assert before[|before| - 1] == s && path[|path| - 2 + 1] == t;
      if SpuriousWakeup(s, t) {
        SpuriousInv(rs, n, s, t);
      } else if DispatcherStep(rs, s, t) {
        DispatcherStepInv(rs, n, s, t);
      } else {
        var i :| DriverStep(s, t, i);
        DriverStepInv(rs, n, s, t, i);
      }
    }
  }

  lemma ReachableInv(rs: seq<Request>, n: nat, s: World)
    requires n >= 1 && Reachable(rs, n, s)
    ensures Inv(rs, n, s)
  {
    var path :| Trace(rs, n, path) && path[|path| - 1] == s;
    TraceInv(rs, n, path);
  }
}
