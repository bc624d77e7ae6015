/**
 * Runs of the dispatcher protocol: when a driver can look at the queue after another one freed it,
 * and how the queue can stay unfreed.
 */
module DispatchRuns {
  import opened CircularQueue
  import opened Dispatch
  import opened DispatchInvariant
  import opened DispatchTheorems

  // ---------------------------------------------------------------- building runs

  lemma StepReachable(rs: seq<Request>, n: nat, s: World, t: World)
    requires Reachable(rs, n, s) && Step(rs, s, t)
    ensures Reachable(rs, n, t)
  {
    hide Step, SpuriousWakeup, Init;
    var path :| Trace(rs, n, path) && path[|path| - 1] == s;
    var longer := path + [t];
    forall k | 0 <= k < |longer| - 1 ensures Step(rs, longer[k], longer[k + 1])
        || SpuriousWakeup(longer[k], longer[k + 1]) {
      if k < |path| - 1 {
        assert longer[k] == path[k] && longer[k + 1] == path[k + 1];
      }
    }
    assert Trace(rs, n, longer) && longer[|longer| - 1] == t;
  }

  lemma StartReachable(rs: seq<Request>, n: nat)
    ensures Reachable(rs, n, Init(n))
  {
    assert Trace(rs, n, [Init(n)]);
  }

  /** The dispatcher executes one statement, waking nobody. */
  lemma DispatcherGoes(rs: seq<Request>, n: nat, s: World) returns (t: World)
    requires Reachable(rs, n, s) && DispatcherReady(rs, s) && s.dp != Broadcasting
    requires s.dp == Signalling ==> forall i :: 0 <= i < |s.drivers| ==> s.drivers[i] != Sleeping
    ensures t == DispatcherNext(rs, s, s.drivers) && Reachable(rs, n, t)
  {
    hide Reachable;
    t := DispatcherNext(rs, s, s.drivers);
    assert DispatcherStep(rs, s, t);
    StepReachable(rs, n, s, t);
  }

  lemma DriverGoes(rs: seq<Request>, n: nat, s: World, i: nat) returns (t: World)
    requires Reachable(rs, n, s) && i < |s.drivers| && DriverReady(s, i)
    ensures t == DriverNext(s, i) && Reachable(rs, n, t)
  {
    hide Reachable;
    t := DriverNext(s, i);
    assert DriverStep(s, t, i);
    StepReachable(rs, n, s, t);
  }

  lemma Broadcasts(rs: seq<Request>, n: nat, s: World) returns (t: World)
    requires Reachable(rs, n, s) && s.dp == Broadcasting && WakeAll(s.drivers) == s.drivers
    ensures t == s.(dp := Quitting) && Reachable(rs, n, t)
  {
    hide Reachable;
    t := DispatcherNext(rs, s, s.drivers);
    assert DispatcherStep(rs, s, t);
    StepReachable(rs, n, s, t);
  }

  function AtStart(n: nat): (ds: seq<Driver>)
    ensures |ds| == n && forall i :: 0 <= i < n ==> ds[i] == AtLock
  {
    seq(n, i => AtLock)
  }

  /** k requests were dispatched and driven, one after the other, and everybody is back at the start. */
  function Served(rs: seq<Request>, n: nat, k: nat): World
    requires k <= |rs|
  {
    World(Nobody, [], k, k, false, false, Reading, AtStart(n), k, rs[..k], rs[..k], 0, false)
  }

  /** The next request is pushed, with no driver waiting for it. */
  lemma PushNext(rs: seq<Request>, n: nat, k: nat) returns (s: World)
    requires k < |rs| && Reachable(rs, n, Served(rs, n, k))
    ensures Reachable(rs, n, s)
    ensures s == Served(rs, n, k).(queue := [rs[k]], total := k + 1, next := k + 1)
  {
    hide Reachable;
    s := Served(rs, n, k);
    s := DispatcherGoes(rs, n, s);
    s := DispatcherGoes(rs, n, s);
    s := DispatcherGoes(rs, n, s);
    s := DispatcherGoes(rs, n, s);
    s := DispatcherGoes(rs, n, s);
    assert s.queue == [rs[k]];
    s := DispatcherGoes(rs, n, s);
    s := DispatcherGoes(rs, n, s);
  }

  /** Driver 0 takes the queued request and drives off. */
  lemma TakeNext(rs: seq<Request>, n: nat, k: nat, s0: World) returns (s: World)
    requires k < |rs| && n >= 1 && Reachable(rs, n, s0) && s0.lock == Nobody && !s0.exitDrivers && s0.dp != SleepingFull
    requires s0.queue == [rs[k]] && s0.popped == rs[..k] && s0.drivers == AtStart(n)
    ensures Reachable(rs, n, s)
    ensures s == s0.(queue := [], popped := rs[..k + 1], drivers := AtStart(n)[0 := Driving(rs[k])])
  {
    hide Reachable;
    s := DriverGoes(rs, n, s0, 0);
    s := DriverGoes(rs, n, s, 0);
    s := DriverGoes(rs, n, s, 0);
    assert s.drivers == AtStart(n)[0 := Popping];
    s := DriverGoes(rs, n, s, 0);
    assert s.queue == [] && s.popped == rs[..k + 1];
    assert s.drivers == AtStart(n)[0 := SignalFull(rs[k])];
    s := DriverGoes(rs, n, s, 0);
    s := DriverGoes(rs, n, s, 0);
    assert s.drivers == AtStart(n)[0 := Driving(rs[k])];
  }

  /** It drives, and is about to check whether that was the last ride. */
  lemma DriveNext(rs: seq<Request>, n: nat, k: nat, s0: World) returns (s: World)
    requires k < |rs| && n >= 1 && Reachable(rs, n, s0) && s0.lock == Nobody
    requires s0.driven == rs[..k] && s0.drivers == AtStart(n)[0 := Driving(rs[k])]
    ensures Reachable(rs, n, s)
    ensures s == s0.(lock := TheDriver(0), driven := rs[..k + 1], done := s0.done + 1, late := s0.dispatchDone,
                     drivers := AtStart(n)[0 := CheckLast])
  {
    hide Reachable;
    s := DriverGoes(rs, n, s0, 0);
    assert s.driven == rs[..k + 1];
    s := DriverGoes(rs, n, s, 0);
    s := DriverGoes(rs, n, s, 0);
    assert s.drivers == AtStart(n)[0 := CheckLast];
  }

  /** While the dispatcher still reads requests, every driver is back at the start after a ride. */
  lemma ServeNext(rs: seq<Request>, n: nat, k: nat)
    requires k < |rs| && n >= 1 && Reachable(rs, n, Served(rs, n, k))
    ensures Reachable(rs, n, Served(rs, n, k + 1))
  {
    hide Reachable;
    var s := PushNext(rs, n, k);
    s := TakeNext(rs, n, k, s);
    s := DriveNext(rs, n, k, s);
    s := DriverGoes(rs, n, s, 0);
    s := DriverGoes(rs, n, s, 0);
    assert s.drivers == AtStart(n);
    assert s == Served(rs, n, k + 1);
  }

  lemma {:induction false} ServedReachable(rs: seq<Request>, n: nat, k: nat)
    requires k <= |rs| && n >= 1
    ensures Reachable(rs, n, Served(rs, n, k))
  {
    hide Reachable;
    if k == 0 {
      StartReachable(rs, n);
      assert Served(rs, n, 0) == Init(n) by {
        assert rs[..0] == [] && AtStart(n) == Init(n).drivers;
      }
    } else {
      ServedReachable(rs, n, k - 1);
      ServeNext(rs, n, k - 1);
    }
  }

  // ---------------------------------------------------------------- the queue is read after the free

  /** Some driver can be about to look whether the queue is empty when another one has freed it. */
  ghost predicate FreedQueueIsRead(rs: seq<Request>, n: nat) {
    exists s, i :: Reachable(rs, n, s) && s.frees == 1 && 0 <= i < |s.drivers| && s.drivers[i] == CheckQueue
  }

  /** Exactly if there are two drivers or more, and a request. */
  lemma FreedQueueIsReadExactly(rs: seq<Request>, n: nat)
    requires n >= 1
    ensures FreedQueueIsRead(rs, n) <==> n >= 2 && rs != []
  {
    hide Reachable;
    if n >= 2 && rs != [] {
      LastRideFrees(rs, n);
    }
    forall s, i | Reachable(rs, n, s) && s.frees == 1 && 0 <= i < |s.drivers| && s.drivers[i] == CheckQueue
      ensures n >= 2 && rs != []
    {
      SomeoneElseFreed(rs, n, s);
    }
  }

  /** The queue is freed only after a ride, by a driver that is on its way out. */
  lemma SomeoneElseFreed(rs: seq<Request>, n: nat, s: World)
    requires n >= 1 && Reachable(rs, n, s) && s.frees == 1
    ensures rs != [] && |s.drivers| == n && exists k :: 0 <= k < n && Freeing(s.drivers[k])
  {
    ReachableInv(rs, n, s);
    hide WakeInv, LockInv;
    assert |s.popped + s.queue| == s.next;
  }

  /** The dispatcher has read everything and waits while driver 0 drives the last request. */
  lemma LastRideFrees(rs: seq<Request>, n: nat)
    requires n >= 2 && rs != []
    ensures FreedQueueIsRead(rs, n)
  {
    hide Reachable;
    var k := |rs| - 1;
    ServedReachable(rs, n, k);
    var s := PushNext(rs, n, k);
    s := AwaitLast(rs, n, s);
    s := TakeNext(rs, n, k, s);
    s := DriveNext(rs, n, k, s);
    s := FreeAndGo(rs, n, s);
    s := DriverGoes(rs, n, s, 1);
    assert s.frees == 1 && s.drivers[1] == CheckQueue;
  }

  lemma AwaitLast(rs: seq<Request>, n: nat, s0: World) returns (s: World)
    requires Reachable(rs, n, s0) && s0.dp == Reading && s0.next == |rs| && s0.lock == Nobody && s0.total != s0.done
    ensures Reachable(rs, n, s) && s == s0.(dispatchDone := true, dp := SleepingDone)
  {
    hide Reachable;
    s := DispatcherGoes(rs, n, s0);
    s := DispatcherGoes(rs, n, s);
    s := DispatcherGoes(rs, n, s);
    s := DispatcherGoes(rs, n, s);
  }

  lemma FreeAndGo(rs: seq<Request>, n: nat, s0: World) returns (s: World)
    requires n >= 1 && Reachable(rs, n, s0) && s0.lock == TheDriver(0) && s0.drivers == AtStart(n)[0 := CheckLast]
    requires s0.dispatchDone && s0.done == s0.total && s0.frees == 0
    ensures Reachable(rs, n, s) && s.frees == 1 && s.lock == Nobody && s.drivers == AtStart(n)[0 := Gone]
  {
    hide Reachable;
    s := DriverGoes(rs, n, s0, 0);
    s := DriverGoes(rs, n, s, 0);
    s := DriverGoes(rs, n, s, 0);
    s := DriverGoes(rs, n, s, 0);
    assert s.drivers == AtStart(n)[0 := Gone];
  }

  // ---------------------------------------------------------------- the queue is not freed

  /** With any drivers and requests the queue can stay unfreed when all threads have returned. */
  lemma QueueCanLeak(rs: seq<Request>, n: nat)
    requires n >= 1
    ensures exists s :: Reachable(rs, n, s) && AllFinished(s) && s.frees == 0 && s.driven == rs
  {
    hide Reachable;
    ServedReachable(rs, n, |rs|);
    var s := Served(rs, n, |rs|);
    assert rs[..|rs|] == rs;
    s := DispatcherEnds(rs, n, s);
    s := DriversLeave(rs, n, s, 0);
    assert AllFinished(s);
  }

  /** The dispatcher finds everything done and returns. */
  lemma DispatcherEnds(rs: seq<Request>, n: nat, s0: World) returns (s: World)
    requires Reachable(rs, n, s0) && s0.dp == Reading && s0.next == |rs| && s0.lock == Nobody && s0.total == s0.done
    requires s0.drivers == AtStart(n)
    ensures Reachable(rs, n, s) && s == s0.(dispatchDone := true, exitDrivers := true, dp := Finished)
  {
    hide Reachable;
    s := FindsAllDone(rs, n, s0);
    s := DispatcherGoes(rs, n, s);
    assert WakeAll(s.drivers) == s.drivers;
    s := Broadcasts(rs, n, s);
    s := DispatcherGoes(rs, n, s);
  }

  lemma FindsAllDone(rs: seq<Request>, n: nat, s0: World) returns (s: World)
    requires Reachable(rs, n, s0) && s0.dp == Reading && s0.next == |rs| && s0.lock == Nobody && s0.total == s0.done
    ensures Reachable(rs, n, s) && s == s0.(lock := TheDispatcher, dispatchDone := true, dp := SettingExit)
  {
    hide Reachable;
    s := DispatcherGoes(rs, n, s0);
    s := DispatcherGoes(rs, n, s);
    s := DispatcherGoes(rs, n, s);
    s := DispatcherGoes(rs, n, s);
  }

  /** Drivers i and on find the exit flag set and return, one after the other. */
  lemma {:induction false} DriversLeave(rs: seq<Request>, n: nat, s0: World, i: nat) returns (s: World)
    requires Reachable(rs, n, s0) && i <= n == |s0.drivers| && s0.lock == Nobody && s0.exitDrivers && s0.dp == Finished
    requires forall j :: 0 <= j < n ==> s0.drivers[j] == if j < i then Gone else AtLock
    ensures Reachable(rs, n, s) && s.dp == Finished && s.frees == s0.frees && s.driven == s0.driven && |s.drivers| == n
    ensures forall j :: 0 <= j < n ==> s.drivers[j] == Gone
    decreases n - i
  {
    hide Reachable;
    s := s0;
    if i < n {
      s := DriverGoes(rs, n, s, i);
      s := DriverGoes(rs, n, s, i);
      s := DriverGoes(rs, n, s, i);
      s := DriverGoes(rs, n, s, i);
      assert forall j :: 0 <= j < n ==> s.drivers[j] == if j < i + 1 then Gone else AtLock;
      s := DriversLeave(rs, n, s, i + 1);
    }
  }
}
