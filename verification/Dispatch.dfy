/**
 * The dispatcher and its drivers (pset5/dispatch/dispatch.c): one mutex, three condition
 * variables, the bounded request queue, and any number of driver threads.
 *
 * Each thread is at a program point; a step executes one statement of one thread. Waiting
 * on a condition variable releases the mutex and sleeps in one step; a signal wakes at least
 * one sleeper if there is one (POSIX.1-2017, pthread_cond_signal). Sleepers may also wake
 * without a signal.
 */
module Dispatch {
  import opened CircularQueue

  type Request = nat  // the address of a request_t

  /** Program points of dispatcher_thread and dispatch. */
  datatype Dispatcher =
    | Reading | Entering | Counting | Checking | SleepingFull | WokenFull | Pushing | Signalling | Leaving
    | Finishing | SettingDone | CheckingDone | SleepingDone | WokenDone | SettingExit | Broadcasting | Quitting
    | Finished

  /** Program points of driver_thread, with the request it carries. */
  datatype Driver =
    | AtLock | CheckQueue | Sleeping | Woken | Deciding | Popping
    | SignalFull(req: Request) | UnlockToDrive(req: Request) | Driving(req: Request) | Relock(req: Request)
    | CountRide(req: Request) | CheckLast | FreeQueue | SignalDone | UnlockAndLoop | UnlockAndExit | Gone

  datatype Holder = Nobody | TheDispatcher | TheDriver(i: nat)

  /**
   * `next` counts the requests pushed; `popped` and `driven` record the requests taken from the
   * queue and driven so far, in order, `frees` how often the queue was freed, and `late` whether the
   * ride counted last was counted after dispatch_done was set.
   */
  datatype World = World(
    lock: Holder, queue: seq<Request>, total: nat, done: nat, dispatchDone: bool, exitDrivers: bool,
    dp: Dispatcher, drivers: seq<Driver>, next: nat, popped: seq<Request>, driven: seq<Request>, frees: nat, late: bool)

  /** init_world, with every thread at its start. */
  function Init(n: nat): World {
    World(Nobody, [], 0, 0, false, false, Reading, seq(n, i => AtLock), 0, [], [], 0, false)
  }

  // ---------------------------------------------------------------- steps

  ghost predicate MaybeWoken(d: Driver, e: Driver) { e == d || (d == Sleeping && e == Woken) }

  /** pthread_cond_signal(&cond_empty): some sleepers wake, at least one if there is any. */
  ghost predicate Signalled(ds: seq<Driver>, es: seq<Driver>) {
    && |es| == |ds| && (forall i :: 0 <= i < |ds| ==> MaybeWoken(ds[i], es[i]))
    && ((exists i :: 0 <= i < |ds| && ds[i] == Sleeping) ==> exists i ::
         0 <= i < |ds| && ds[i] == Sleeping && es[i] == Woken)
  }

  function WakeAll(ds: seq<Driver>): seq<Driver> {
    seq(|ds|, i requires 0 <= i < |ds| => if ds[i] == Sleeping then Woken else ds[i])
  }

  /** Whether the dispatcher can execute its next statement: it sleeps, needs the lock, or runs on. */
  predicate DispatcherReady(rs: seq<Request>, s: World) {
    match s.dp
    case Entering => s.lock == Nobody
    case WokenFull => s.lock == Nobody
    case Finishing => s.lock == Nobody
    case WokenDone => s.lock == Nobody
    case Pushing => s.next < |rs|
    case SleepingFull => false
    case SleepingDone => false
    case Finished => false
    case _ => true
  }

  /** The dispatcher's next statement; `woken` is what the signal makes of the drivers. */
  function DispatcherNext(rs: seq<Request>, s: World, woken: seq<Driver>): World
    requires DispatcherReady(rs, s)
  {
    match s.dp
    case Reading => s.(dp := if s.next < |rs| then Entering else Finishing)
    case Entering => s.(lock := TheDispatcher, dp := Counting)
    case Counting => s.(total := s.total + 1, dp := Checking)
    case Checking => if |s.queue| == MAX_QUEUE_SIZE then s.(lock := Nobody, dp := SleepingFull) else s.(dp := Pushing)
    case WokenFull => s.(lock := TheDispatcher, dp := Checking)
    case Pushing => s.(queue := s.queue + [rs[s.next]], next := s.next + 1, dp := Signalling)
    case Signalling => s.(drivers := woken, dp := Leaving)
    case Leaving => s.(lock := Nobody, dp := Reading)
    case Finishing => s.(lock := TheDispatcher, dp := SettingDone)
    case SettingDone => s.(dispatchDone := true, dp := CheckingDone)
    case CheckingDone => if s.total != s.done then s.(lock := Nobody, dp := SleepingDone) else s.(dp := SettingExit)
    case WokenDone => s.(lock := TheDispatcher, dp := CheckingDone)
    case SettingExit => s.(exitDrivers := true, dp := Broadcasting)
    case Broadcasting => s.(drivers := WakeAll(s.drivers), dp := Quitting)
    case Quitting => s.(lock := Nobody, dp := Finished)
  }

  ghost predicate DispatcherStep(rs: seq<Request>, s: World, t: World) {
    && DispatcherReady(rs, s) && t == DispatcherNext(rs, s, t.drivers)
    && (s.dp == Signalling ==> Signalled(s.drivers, t.drivers))
  }

  /** Whether driver i can execute its next statement. */
  predicate DriverReady(s: World, i: nat)
    requires i < |s.drivers|
  {
    match s.drivers[i]
    case AtLock => s.lock == Nobody
    case Woken => s.lock == Nobody
    case Relock(r) => s.lock == Nobody
    case Popping => s.queue != []
    case Sleeping => false
    case Gone => false
    case _ => true
  }

  /** Where driver i's next statement leads. */
  function DriverGoto(s: World, i: nat): Driver
    requires i < |s.drivers| && DriverReady(s, i)
  {
    match s.drivers[i]
    case AtLock => CheckQueue
    case CheckQueue => if s.queue == [] && !s.exitDrivers then Sleeping else Deciding
    case Woken => CheckQueue
    case Deciding => if s.exitDrivers then UnlockAndExit else Popping
    case Popping => SignalFull(s.queue[0])
    case SignalFull(r) => UnlockToDrive(r)
    case UnlockToDrive(r) => Driving(r)
    case Driving(r) => Relock(r)
    case Relock(r) => CountRide(r)
    case CountRide(r) => CheckLast
    case CheckLast => if s.dispatchDone && s.done == s.total then FreeQueue else UnlockAndLoop
    case FreeQueue => SignalDone
    case SignalDone => UnlockAndExit
    case UnlockAndLoop => AtLock
    case UnlockAndExit => Gone
  }

  /** What driver i's next statement does to the shared state. */
  function DriverEffect(s: World, i: nat): World
    requires i < |s.drivers| && DriverReady(s, i)
  {
    match s.drivers[i]
    case AtLock => s.(lock := TheDriver(i))
    case CheckQueue => if s.queue == [] && !s.exitDrivers then s.(lock := Nobody) else s
    case Woken => s.(lock := TheDriver(i))
    case Popping => s.(queue := s.queue[1..], popped := s.popped + [s.queue[0]])
    case SignalFull(r) => s.(dp := if s.dp == SleepingFull then WokenFull else s.dp)
    case UnlockToDrive(r) => s.(lock := Nobody)
    case Driving(r) => s.(driven := s.driven + [r])
    case Relock(r) => s.(lock := TheDriver(i))
    case CountRide(r) => s.(done := s.done + 1, late := s.dispatchDone)
    case FreeQueue => s.(frees := s.frees + 1)
    case SignalDone => s.(dp := if s.dp == SleepingDone then WokenDone else s.dp)
    case UnlockAndLoop => s.(lock := Nobody)
    case UnlockAndExit => s.(lock := Nobody)
    case _ => s
  }

  function At(s: World, i: nat, d: Driver): World
    requires i < |s.drivers|
  {
    s.(drivers := s.drivers[i := d])
  }

  function DriverNext(s: World, i: nat): World
    requires i < |s.drivers| && DriverReady(s, i)
  {
    DriverEffect(s, i).(drivers := s.drivers[i := DriverGoto(s, i)])
  }

  ghost predicate DriverStep(s: World, t: World, i: nat) {
    i < |s.drivers| && DriverReady(s, i) && t == DriverNext(s, i)
  }

  /** One statement of one thread. */
  ghost predicate Step(rs: seq<Request>, s: World, t: World) {
    DispatcherStep(rs, s, t) || exists i :: DriverStep(s, t, i)
  }

  /** A sleeper wakes although nobody signalled. */
  ghost predicate SpuriousWakeup(s: World, t: World) {
    || (s.dp == SleepingFull && t == s.(dp := WokenFull))
    || (s.dp == SleepingDone && t == s.(dp := WokenDone))
    || (exists i :: 0 <= i < |s.drivers| && s.drivers[i] == Sleeping && t == At(s, i, Woken))
  }

  /** s is reachable: the last state of some sequence of steps and spurious wakeups from the start. */
  ghost predicate Trace(rs: seq<Request>, n: nat, path: seq<World>) {
    && |path| > 0 && path[0] == Init(n)
    && forall k :: 0 <= k < |path| - 1 ==> Step(rs, path[k], path[k + 1]) || SpuriousWakeup(path[k], path[k + 1])
  }

  ghost predicate Reachable(rs: seq<Request>, n: nat, s: World) {
    exists path :: Trace(rs, n, path) && path[|path| - 1] == s
  }

  // ---------------------------------------------------------------- counting over the drivers

  function Sum(ds: seq<Driver>, f: Driver -> nat): nat {
    if ds == [] then 0 else f(ds[0]) + Sum(ds[1..], f)
  }

  lemma {:induction false} SumMove(ds: seq<Driver>, f: Driver -> nat, i: nat, d: Driver)
    requires i < |ds|
    ensures Sum(ds[i := d], f) + f(ds[i]) == Sum(ds, f) + f(d)
  {
    if i == 0 {
      assert ds[0 := d][1..] == ds[1..];
    } else {
      SumMove(ds[1..], f, i - 1, d);
      assert ds[i := d][1..] == ds[1..][i - 1 := d];
    }
  }

  lemma {:induction false} SumSame(ds: seq<Driver>, es: seq<Driver>, f: Driver -> nat)
    requires |ds| == |es| && forall i :: 0 <= i < |ds| ==> f(ds[i]) == f(es[i])
    ensures Sum(ds, f) == Sum(es, f)
  {
    if ds != [] {
      SumSame(ds[1..], es[1..], f);
    }
  }

  lemma {:induction false} SumPositive(ds: seq<Driver>, f: Driver -> nat, i: nat)
    requires i < |ds|
    ensures Sum(ds, f) >= f(ds[i])
  {
    if i > 0 {
      SumPositive(ds[1..], f, i - 1);
    }
  }

  lemma {:induction false} SumZero(ds: seq<Driver>, f: Driver -> nat)
    requires forall i :: 0 <= i < |ds| ==> f(ds[i]) == 0
    ensures Sum(ds, f) == 0
  {
    if ds != [] {
      SumZero(ds[1..], f);
    }
  }

  /** A request popped and not yet counted as done. */
  function Carries(d: Driver): nat {
    if d.SignalFull? || d.UnlockToDrive? || d.Driving? || d.Relock? || d.CountRide? then 1 else 0
  }

  /** Whether driver d still has to drive request r. */
  function Owes(d: Driver, r: Request): nat {
    if (d.SignalFull? || d.UnlockToDrive? || d.Driving?) && d.req == r then 1 else 0
  }

  /** How many drivers still have to drive r. */
  function Owed(ds: seq<Driver>, r: Request): nat {
    if ds == [] then 0 else Owes(ds[0], r) + Owed(ds[1..], r)
  }

  lemma {:induction false} OwedMove(ds: seq<Driver>, i: nat, d: Driver, r: Request)
    requires i < |ds|
    ensures Owed(ds[i := d], r) + Owes(ds[i], r) == Owed(ds, r) + Owes(d, r)
  {
    if i == 0 {
      assert ds[0 := d][1..] == ds[1..];
    } else {
      OwedMove(ds[1..], i - 1, d, r);
      assert ds[i := d][1..] == ds[1..][i - 1 := d];
    }
  }

  lemma {:induction false} OwedSame(ds: seq<Driver>, es: seq<Driver>, r: Request)
    requires |ds| == |es| && forall i :: 0 <= i < |ds| ==> Owes(ds[i], r) == Owes(es[i], r)
    ensures Owed(ds, r) == Owed(es, r)
  {
    if ds != [] {
      OwedSame(ds[1..], es[1..], r);
    }
  }

  // ---------------------------------------------------------------- the invariant

  predicate DispatcherHolds(d: Dispatcher) {
    (d.Counting? || d.Checking? || d.Pushing? || d.Signalling? || d.Leaving? || d.SettingDone? || d.CheckingDone?
        || d.SettingExit? || d.Broadcasting? || d.Quitting?)
  }

  predicate DriverHolds(d: Driver) {
    d.CheckQueue? || d.Deciding? || d.Popping? || d.SignalFull? || d.UnlockToDrive? || d.CountRide? || d.CheckLast? ||
    d.FreeQueue? || d.SignalDone? || d.UnlockAndLoop? || d.UnlockAndExit?
  }

  /** Between the increment of total_rides and the push. */
  predicate Announced(d: Dispatcher) { (d.Checking? || d.SleepingFull? || d.WokenFull? || d.Pushing?) }

  predicate InDispatch(d: Dispatcher) { (d.Entering? || d.Counting?) || Announced(d) }

  predicate ReadingDone(d: Dispatcher) {
    (d.Finishing? || d.SettingDone? || d.CheckingDone? || d.SleepingDone? || d.WokenDone? || d.SettingExit?
        || d.Broadcasting? || d.Quitting? || d.Finished?)
  }

  predicate Awake(d: Driver) { !d.Sleeping? && !d.Gone? }

  ghost predicate SomeAwake(ds: seq<Driver>) { exists i :: 0 <= i < |ds| && Awake(ds[i]) }

  /** Mutual exclusion: the lock is held by exactly the thread that is inside. */
  ghost predicate LockInv(s: World) {
    && (s.lock == TheDispatcher <==> DispatcherHolds(s.dp))
    && (s.lock.TheDriver? ==> s.lock.i < |s.drivers|)
    && forall i :: 0 <= i < |s.drivers| ==> (s.lock == TheDriver(i) <==> DriverHolds(s.drivers[i]))
  }

  /** The queue holds, in order, the requests pushed and not popped. */
  ghost predicate OrderInv(rs: seq<Request>, s: World) {
    && s.next <= |rs| && s.popped + s.queue == rs[..s.next] && |s.queue| <= MAX_QUEUE_SIZE
    && s.total == s.next + (if Announced(s.dp) then 1 else 0)
    && (InDispatch(s.dp) ==> s.next < |rs|)
    && (ReadingDone(s.dp) ==> s.next == |rs|)
    && (s.dp == Pushing ==> |s.queue| < MAX_QUEUE_SIZE)
  }

  /** Every request popped was counted as done or is with a driver, and is driven once. */
  ghost predicate LedgerInv(s: World) {
    && |s.popped| == s.done + Sum(s.drivers, Carries)
    && forall r :: multiset(s.driven)[r] + Owed(s.drivers, r) == multiset(s.popped)[r]
  }

  /** The flags, and when the queue is freed. */
  ghost predicate FlagInv(s: World) {
    && (s.dispatchDone <==> ReadingDone(s.dp) && !(s.dp.Finishing? || s.dp.SettingDone?))
    && (s.exitDrivers <==> (s.dp.Broadcasting? || s.dp.Quitting? || s.dp.Finished?))
    && (s.dp == SettingExit || s.exitDrivers ==> s.total == s.done)
    && s.frees <= 1 && (s.frees == 1 ==> s.dispatchDone && s.total == s.done)
  }

  /** What a driver knows where it is. */
  ghost predicate DriverInv(s: World, d: Driver) {
    && (d == Deciding ==> s.queue != [] || s.exitDrivers)
    && (d == Popping ==> s.queue != [] && !s.exitDrivers)
    && ((d.CheckLast? || d.FreeQueue?) ==> s.frees == 0)
    && ((d.FreeQueue? || d.SignalDone? || d.UnlockAndExit? || d.Gone?) ==> s.dispatchDone && s.total == s.done)
  }

  /** No lost wakeups. */
  ghost predicate WakeInv(s: World) {
    && (s.queue != [] ==> SomeAwake(s.drivers) || s.dp == Signalling)
    && (s.dp == SleepingFull ==>
          |s.queue| == MAX_QUEUE_SIZE || exists i :: 0 <= i < |s.drivers| && s.drivers[i].SignalFull?)
    && (s.dp == SleepingDone ==>
          s.total != s.done || exists i ::
            0 <= i < |s.drivers| && (s.drivers[i].CheckLast? || s.drivers[i].FreeQueue? || s.drivers[i].SignalDone?))
    && ((s.dp.Quitting? || s.dp.Finished?) ==> forall i :: 0 <= i < |s.drivers| ==> s.drivers[i] != Sleeping)
  }

  /** After the free, on the way out. */
  predicate Freeing(d: Driver) { d.SignalDone? || d.UnlockAndExit? || d.Gone? }

  /** The queue is freed by whoever counted the last ride, if it was counted after dispatch_done was set. */
  ghost predicate FreedInv(s: World) {
    && (s.frees == 1 ==> s.late && exists i :: 0 <= i < |s.drivers| && Freeing(s.drivers[i]))
    && (s.late ==> s.dispatchDone && s.done > 0)
    && (forall i :: 0 <= i < |s.drivers| ==>
          && (s.drivers[i].CheckLast? ==> s.late == s.dispatchDone) && (s.drivers[i].FreeQueue? ==> s.late))
    && (s.late && s.done == s.total && s.frees == 0 ==>
          exists i :: 0 <= i < |s.drivers| && (s.drivers[i].CheckLast? || s.drivers[i].FreeQueue?))
  }

  ghost predicate Inv(rs: seq<Request>, n: nat, s: World) {
    && |s.drivers| == n && n >= 1
    && LockInv(s) && OrderInv(rs, s) && LedgerInv(s) && FlagInv(s) && WakeInv(s) && FreedInv(s)
    && forall i :: 0 <= i < n ==> DriverInv(s, s.drivers[i])
  }

  lemma InitInv(rs: seq<Request>, n: nat)
    requires n >= 1
    ensures Inv(rs, n, Init(n))
  {
    var s := Init(n);
    SumZero(s.drivers, Carries);
    forall r ensures Owed(s.drivers, r) == 0 {
      OwedNone(s.drivers, r);
    }
    assert rs[..0] == [];
  }

  lemma {:induction false} OwedNone(ds: seq<Driver>, r: Request)
    requires forall i :: 0 <= i < |ds| ==> Owes(ds[i], r) == 0
    ensures Owed(ds, r) == 0
  {
    if ds != [] {
      OwedNone(ds[1..], r);
    }
  }
}
