/**
 * Theorems about whole runs of the kernel, from a successful boot through any sequence of
 * traps and user stores.
 */
module KernelRuns {
  import opened Machine
  import opened Paging
  import opened KernelSpec
  import opened KernelInvariant
  import opened KernelFork
  import opened KernelMemory
  import opened KernelCounts
  import opened KernelAnchors
  import opened KernelSteps
  import opened KernelSharing
  import opened KernelBoot

  /** A machine, the programs it boots, and everything that happens afterwards. */
  datatype History = History(at: Layout, ram: seq<Page>, programs: seq<Program>, events: seq<Event>)
  {
    ghost predicate Ok() {
      |ram| == NPAGES && ProgramsOk(programs) && AllPossible(events)
    }

    /** The processes loaded at boot. */
    ghost function Loaded(): set<nat> { UpTo(|programs| + 1) }
  }

  /** process_setup of program k turns boots[k] into boots[k + 1]. */
  ghost predicate SetsUp(h: History, boots: seq<KState>, k: nat)
    requires k < |h.programs| < NPROC && |boots| == |h.programs| + 1
  {
    ProcessSetup(boots[k], k + 1, h.programs[k]) == Done(boots[k + 1], 0)
  }

  /** The first k programs are set up one after the other. */
  ghost predicate SetUpTo(h: History, boots: seq<KState>, k: nat)
    requires h.Ok() && k <= |h.programs|
  {
    && |boots| == |h.programs| + 1 && boots[0] == InitialState(h.at, h.ram)
    && forall j: nat {:trigger SetsUp(h, boots, j)} :: j < k ==> SetsUp(h, boots, j)
  }

  /** Setting up the programs one after the other and running process 1 gives s. */
  ghost predicate Boots(h: History, boots: seq<KState>, s: KState)
    requires h.Ok()
  {
    && SetUpTo(h, boots, |h.programs|)
    && boots[|h.programs|].procs[1].state.Runnable? && s == boots[|h.programs|].(current := 1)
  }

  /** Event k turns path[k] into path[k + 1]; only the last event can leave nothing to run. */
  ghost predicate Advances(h: History, path: seq<KState>, k: nat)
    requires h.Ok() && k < |h.events| && |path| == |h.events| + 1
  {
    var r := Step(h.at, path[k], h.events[k]);
    (r.Done? || (r.Idle? && k + 1 == |h.events|)) && r.state == path[k + 1]
  }

  /** path holds the states of the history from a successful boot on. */
  ghost predicate Execution(h: History, path: seq<KState>) {
    && h.Ok() && |path| == |h.events| + 1 && (exists boots :: Boots(h, boots, path[0]))
    && forall k: nat {:trigger Advances(h, path, k)} :: k < |h.events| ==> Advances(h, path, k)
  }

  /** s is reached by a history whose boot succeeded. */
  ghost predicate Reached(h: History, s: KState) {
    exists path :: Execution(h, path) && path[|h.events|] == s
  }

  /** One more program set up. */
  lemma SetUpNext(h: History, boots: seq<KState>, k: nat, s: KState)
    requires h.Ok() && k < |h.programs| && SetUpTo(h, boots, k)
    requires ProcessSetup(boots[k], k + 1, h.programs[k]) == Done(s, 0)
    ensures SetUpTo(h, boots[k + 1 := s], k + 1)
  {
    hide ProcessSetup, InitialState;
    var more := boots[k + 1 := s];
    forall j: nat | j < k + 1 ensures SetsUp(h, more, j) {
      assert j < k ==> SetsUp(h, boots, j);
    }
  }

  /** A boot is a history without events. */
  lemma Begins(h: History, boots: seq<KState>, s: KState)
    requires h.Ok() && Boots(h, boots, s) && h.events == []
    ensures Reached(h, s)
  {
    assert Boots(h, boots, [s][0]);
    assert Execution(h, [s]);
  }

  lemma {:induction false} BootsInv(h: History, boots: seq<KState>, k: nat)
    requires h.Ok() && k <= |h.programs| && SetUpTo(h, boots, k)
    ensures Inv(boots[k]) && Live(boots[k]) == UpTo(k + 1)
    ensures Sharing(boots[k], Live(boots[k]), Live(boots[k]), UpTo(k + 1))
    ensures Anchored(h.at, boots[k])
  {
    hide Inv, Sharing, ProcessSetup, InitialState, Live, Anchored;
    if k == 0 {
      InitialInv(h.at, h.ram);
    } else {
      BootsInv(h, boots, k - 1);
      assert SetsUp(h, boots, k - 1);
      ProcessSetupInv(h.at, boots[k - 1], k, h.programs[k - 1], UpTo(k));
      assert UpTo(k) + {k} == UpTo(k + 1);
    }
  }

  lemma BootedInv(h: History, boots: seq<KState>, s: KState)
    requires h.Ok() && Boots(h, boots, s)
    ensures Good(s) && Shared(s, h.Loaded()) && Anchored(h.at, s)
    ensures RunProcess(h.at, boots[|h.programs|], 1) == Done(s, 0)
  {
    hide Inv, Sharing, ProcessSetup, InitialState, Live, Anchored, RunProcess;
    BootsInv(h, boots, |h.programs|);
    StartInv(h.at, boots[|h.programs|], h.Loaded());
  }

  lemma {:induction false} PathInv(h: History, path: seq<KState>, k: nat)
    requires Execution(h, path) && k <= |h.events|
    ensures Inv(path[k]) && Anchored(h.at, path[k]) && (k < |h.events| ==> Good(path[k]))
  {
    hide Inv, Shared, Step, Boots, Anchored;
    if k == 0 {
      var boots :| Boots(h, boots, path[0]);
      BootedInv(h, boots, path[0]);
    } else {
      PathInv(h, path, k - 1);
      assert Advances(h, path, k - 1);
      StepInv(h.at, path[k - 1], h.events[k - 1]);
    }
  }

  lemma ReachedInv(h: History, s: KState)
    requires Reached(h, s)
    ensures Inv(s) && Anchored(h.at, s)
  {
    hide Inv, Boots, Advances, Anchored;
    var path :| Execution(h, path) && path[|h.events|] == s;
    PathInv(h, path, |h.events|);
  }

  /**
   * The assertions of virtual_memory_check hold in every reachable state, whatever exited and
   * whichever fork failed before.
   */
  lemma CheckAlwaysHolds(h: History, s: KState)
    requires Reached(h, s)
    ensures VirtualMemoryCheck(s)
  {
    ReachedInv(h, s);
    CheckHolds(s);
  }

  /** The processes that run on the kernel's page table, from `i` on. */
  ghost function OnKernelTable(s: KState, i: nat): set<nat> {
    set p: nat | i <= p < NPROC && !s.procs[p].state.Free? && s.procs[p].pagetable == s.kpt
  }

  lemma {:induction false} UsersCounted(s: KState, i: nat)
    requires i <= NPROC
    ensures KernelTableUsers(s, i) == |OnKernelTable(s, i)|
    decreases NPROC - i
  {
    if i < NPROC {
      UsersCounted(s, i + 1);
      if i in OnKernelTable(s, i) {
        assert OnKernelTable(s, i) == OnKernelTable(s, i + 1) + {i};
      } else {
        assert OnKernelTable(s, i) == OnKernelTable(s, i + 1);
      }
    } else {
      assert OnKernelTable(s, i) == {};
    }
  }

  /** A page table used `refcount` times and the pages its entries name, used once each, belong to `owner`. */
  ghost predicate TableBelongs(s: KState, pt: nat, owner: int, refcount: int) {
    && pt < NPAGES && s.pageinfo[pt].owner == owner && s.pageinfo[pt].refcount == refcount
    && forall i :: 0 <= i < NENTRIES && s.mem[pt][i].perm.p ==>
         var f := s.mem[pt][i].frame;
         f < NPAGES && s.pageinfo[f].owner == owner && s.pageinfo[f].refcount == 1
  }

  lemma TableMeans(s: KState, pt: nat, owner: int, refcount: int)
    ensures TableCheck(s, pt, owner, refcount) <==> TableBelongs(s, pt, owner, refcount)
  {}

  ghost predicate InUse(s: KState, p: int) { 0 <= p < NPROC && !s.procs[p].state.Free? }

  /**
   * What the check decides, for any state: no process 0; page tables belong to their process, the kernel's
   * used once more for each process that runs on it; and every page in use belongs to a process in use, or
   * to none.
   */
  lemma CheckMeans(s: KState)
    ensures VirtualMemoryCheck(s) <==>
      && !InUse(s, 0) && TableBelongs(s, s.kpt, PO_KERNEL, 1 + |OnKernelTable(s, 0)|)
      && (forall p: nat :: InUse(s, p) && s.procs[p].pagetable != s.kpt ==>
            TableBelongs(s, s.procs[p].pagetable, p, 1))
      && forall f :: 0 <= f < NPAGES && s.pageinfo[f].refcount > 0 && s.pageinfo[f].owner >= 0 ==>
           InUse(s, s.pageinfo[f].owner)
  {
    hide TableCheck, TableBelongs;
    UsersCounted(s, 0);
    TableMeans(s, s.kpt, PO_KERNEL, 1 + |OnKernelTable(s, 0)|);
    forall p: nat | p < NPROC
      ensures ProcessCheck(s, p) <==>
        (InUse(s, p) && s.procs[p].pagetable != s.kpt ==> TableBelongs(s, s.procs[p].pagetable, p, 1))
    {
      TableMeans(s, s.procs[p].pagetable, p, 1);
    }
    forall f: nat | f < NPAGES
      ensures OwnerCheck(s, f) <==>
        (s.pageinfo[f].refcount > 0 && s.pageinfo[f].owner >= 0 ==> InUse(s, s.pageinfo[f].owner))
    {}
  }

  /**
   * A reachable page is free exactly when its reference count is 0, and a process page is
   * counted at most once per process in use, so the count fits in an int8_t.
   */
  lemma RefcountBound(h: History, s: KState, f: nat)
    requires Reached(h, s) && f < NPAGES
    ensures s.pageinfo[f].owner == PO_FREE <==> s.pageinfo[f].refcount == 0
    ensures 0 <= s.pageinfo[f].refcount <= 15
    ensures s.pageinfo[f].owner > 0 ==> s.pageinfo[f].refcount <= |Live(s)|
  {
    ReachedInv(h, s);
    assert PageOk(s.pageinfo[f], Live(s));
    assert Live(s) <= UpTo(NPROC);
    SubsetSize(Live(s), UpTo(NPROC));
    UpToSize(NPROC);
  }

  lemma {:induction false} UpToSize(n: nat)
    requires n >= 1
    ensures |UpTo(n)| == n - 1
  {
    if n > 1 {
      UpToSize(n - 1);
    }
  }

  /**
   * Exactly when a trap stops the machine after a successful boot: a process is given a page and
   * asked for it at an address that is unaligned, not below 4 MB, or in one of the kernel pages
   * that set_pagetable looks up; the kernel itself faults; or the trap is a panic or unknown.
   */
  lemma PanicsExactly(h: History, s: KState, t: Trap, regs: Registers)
    requires Reached(h, s) && s.procs[s.current].state.Runnable?
    ensures Exception(h.at, s, t, regs).Panic? <==> StopsMachine(h.at, s, t, regs)
  {
    hide Inv, Exception, Anchored, StopsMachine, Reached;
    ReachedInv(h, s);
    ExceptionInv(h.at, s, t, regs);
  }

  /** For one, while there is a free page, asking for a page over the interrupt handler's code stops the machine. */
  lemma AllocOverHandlerPanics(h: History, s: KState, regs: Registers, f: nat)
    requires Reached(h, s) && s.procs[s.current].state.Runnable? && f < NPAGES && s.pageinfo[f].owner == PO_FREE
    requires regs.eax == PageNumber(h.at.handler) * PAGESIZE
    ensures Exception(h.at, s, PageAllocation, regs).Panic?
  {
    hide Exception, Reached;
    PanicsExactly(h, s, PageAllocation, regs);
    FirstFreeFinds(s.pageinfo, 0, f);
  }

  /** The assertion of memshow_virtual, which exception() runs on some live process: what is mapped exists. */
  lemma DisplayAssertionHolds(h: History, s: KState, p: nat, va: nat)
    requires Reached(h, s) && p in Live(s) && va < 0x1_0000_0000
    ensures Lookup(s.mem, s.procs[p].pagetable, va).pn >= 0 ==>
      Lookup(s.mem, s.procs[p].pagetable, va).pa < NPAGES * PAGESIZE
  {
    hide Reached, Anchored;
    ReachedInv(h, s);
    var v := PageNumber(va);
    WalkIsEntry(s, p, v);
    if v < NENTRIES {
      assert EntryOk(s, p, v);
    }
  }

  lemma {:induction false} FirstFreeFinds(pi: seq<PageInfo>, i: nat, f: nat)
    requires |pi| == NPAGES && i <= f < NPAGES && pi[f].owner == PO_FREE
    ensures FirstFree(pi, i, NPAGES) != -1
    decreases f - i
  {
    if i < f {
      FirstFreeFinds(pi, i + 1, f);
    }
  }

  // ---------------------------------------------------------------- isolation

  /** Process p maps frame f for user code at virtual page v (and may write it). */
  ghost predicate UserMaps(s: KState, p: nat, v: nat, f: nat)
    requires p < NPROC && v < L1_PAGES
  {
    var e := Walk(s.mem, s.procs[p].pagetable, v);
    e.perm.p && e.perm.u && e.frame == f
  }

  ghost predicate UserWrites(s: KState, p: nat, v: nat, f: nat)
    requires p < NPROC && v < L1_PAGES
  {
    UserMaps(s, p, v, f) && Walk(s.mem, s.procs[p].pagetable, v).perm.w
  }

  /** The event is not the exit of a process loaded at boot. */
  ghost predicate Stays(s: KState, e: Event, loaded: set<nat>) {
    e.Trapped? && e.trap == ExitCall ==> s.current !in loaded
  }

  ghost predicate LoadedStay(h: History, path: seq<KState>)
    requires |path| == |h.events| + 1
  {
    forall k :: 0 <= k < |h.events| ==> Stays(path[k], h.events[k], h.Loaded())
  }

  ghost predicate Shared(s: KState, loaded: set<nat>) {
    Inv(s) && Sharing(s, Live(s), Live(s), loaded)
  }

  lemma HandleShares(at: Layout, s: KState, t: Trap, loaded: set<nat>)
    requires Good(s) && Anchored(at, s) && Shared(s, loaded) && (t == ExitCall ==> s.current !in loaded)
    ensures var r := Handle(at, s, t); r.Done? || r.Idle? ==> Shared(r.state, loaded)
  {
    hide Core, Sharing, Exit, Fork, PageAlloc, SameViews, RunProcess;
    CurrentLives(s);
    match t
    case SysPanic =>
    case GetPid => SameShares(s, SetEax(s, s.current, s.procs[s.current].pid), loaded);
    case Yield => ScheduleShares(at, s, loaded);
    case Timer => ScheduleShares(at, s, loaded);
    case PageAllocation => PageAllocShares(s, loaded);
    case ForkCall => ForkCallShares(s, loaded);
    case ExitCall => ExitShares(s, loaded);
    case PageFault => SameShares(s, s.(procs := s.procs[s.current := s.procs[s.current].(state := Broken)]), loaded);
    case Unknown =>
  }

  lemma SameShares(s: KState, t: KState, loaded: set<nat>)
    requires Shared(s, loaded) && t.pageinfo == s.pageinfo && t.mem == s.mem && t.kpt == s.kpt
    requires forall p :: 0 <= p < NPROC ==>
               && t.procs[p].pid == s.procs[p].pid && t.procs[p].pagetable == s.procs[p].pagetable
               && (t.procs[p].state.Free? <==> s.procs[p].state.Free?)
    ensures Shared(t, loaded)
  {
    hide Core, Sharing, SameViews;
    DescriptorsKeep(s, t);
    SharingSame(s, t, Live(s), Live(t), Live(s), Live(t), loaded) by { SharingNames(s, loaded); }
  }

  lemma SharingNames(s: KState, loaded: set<nat>)
    requires Shared(s, loaded)
    ensures loaded <= Live(s)
  {}

  /** Picking a process to run shares nothing, whether or not it may run. */
  lemma ScheduleShares(at: Layout, s: KState, loaded: set<nat>)
    requires Shared(s, loaded)
    ensures var r := Schedule(at, s); r.Done? || r.Idle? ==> Shared(r.state, loaded)
    ensures var r := RunProcess(at, s, s.current); !r.Idle? && (r.Done? ==> Shared(r.state, loaded))
  {
    hide Core, Sharing, SameViews, Live, PagetableOk;
    SameShares(s, s, loaded);
    SameShares(s, s.(current := s.current), loaded);
    var next := NextRunnable(s.procs, s.current, NPROC);
    if next != -1 {
      SameShares(s, s.(current := next), loaded);
    }
  }

  lemma PageAllocShares(s: KState, loaded: set<nat>)
    requires Good(s) && Shared(s, loaded)
    ensures !PageAlloc(s).Idle? && (PageAlloc(s).Done? ==> Shared(PageAlloc(s).state, loaded))
  {
    hide Core, Sharing, SameViews, PageAlloc, Unmapped;
    PageAllocInv(s);
    var f := FirstFree(s.pageinfo, 0, NPAGES);
    if f == -1 {
      SameShares(s, SetEax(s, s.current, EAX_ERROR), loaded);
    } else if PageAlloc(s).Done? {
      FreeUnmapped(s, Live(s), Live(s), loaded, f);
      CurrentLives(s);
      AllocatedOwners(s, PageAlloc(s).state, PageNumber(s.procs[s.current].regs.eax), f, loaded);
      SharingFresh(s, PageAlloc(s).state, Live(s), Live(s), loaded, s.current,
          PageNumber(s.procs[s.current].regs.eax), f);
    }
  }

  lemma AllocatedOwners(s: KState, t: KState, v: nat, f: nat, loaded: set<nat>)
    requires Shared(s, loaded) && Allocated(s, t, v, f)
    ensures OwnersKept(s, t, loaded)
  {}

  lemma ForkCallShares(s: KState, loaded: set<nat>)
    requires Good(s) && Shared(s, loaded)
    ensures Fork(s).Done? && Shared(Fork(s).state, loaded)
  {
    hide Core, Sharing, SameViews, Fork, InheritsFrom;
    CurrentLives(s);
    ForkOutcome(s);
    var slot := FreeSlot(s.procs, 1);
    if slot != -1 {
      if Fork(s).ret == -1 {
        SharingNames(s, loaded);
        SharingSame(s, Fork(s).state, Live(s), Live(s), Live(s), Live(s), loaded);
      } else {
        ForkShares(s, Fork(s).state, slot, loaded);
      }
    }
  }

  lemma ExitShares(s: KState, loaded: set<nat>)
    requires Good(s) && Shared(s, loaded) && s.current !in loaded
    ensures Shared(Exit(s, s.current), loaded)
  {
    hide Core, Sharing, SameViews;
    CurrentLives(s);
    ExitInv(s, s.current);
    SharingNames(s, loaded);
    SharingSame(s, Exit(s, s.current), Live(s), Live(s) - {s.current}, Live(s), Live(s) - {s.current}, loaded);
  }

  lemma StepShares(at: Layout, s: KState, e: Event, loaded: set<nat>)
    requires Good(s) && Anchored(at, s) && Shared(s, loaded) && e.Possible() && Stays(s, e, loaded)
    ensures var r := Step(at, s, e); r.Done? || r.Idle? ==> Shared(r.state, loaded)
  {
    hide Core, Sharing, SameViews, Handle, Schedule, VirtualMemoryCheck, UserStore, RunProcess, PagetableOk, Anchored;
    match e
    case Stored(vpn, i, w) => StoreShares(s, vpn, i, w, loaded);
    case Trapped(t, regs) =>
      var s1 := Saved(s, regs);
      SavedInv(at, s, s1);
      SameShares(s, s1, loaded);
      HandleShares(at, s1, t, loaded);
      if Handle(at, s1, t).Done? {
        ScheduleShares(at, Handle(at, s1, t).state, loaded);
      }
  }

  lemma StoreShares(s: KState, vpn: nat, i: nat, w: Word, loaded: set<nat>)
    requires Good(s) && Shared(s, loaded) && vpn < L1_PAGES && i < NENTRIES
    ensures Shared(UserStore(s, vpn, i, w), loaded)
  {
    hide Core, Sharing, SameViews;
    UserStoreInv(s, vpn, i, w);
    SharingNames(s, loaded);
    SharingSame(s, UserStore(s, vpn, i, w), Live(s), Live(s), Live(s), Live(s), loaded);
  }

  lemma {:induction false} PathShares(h: History, path: seq<KState>, k: nat)
    requires Execution(h, path) && LoadedStay(h, path) && k <= |h.events|
    ensures Shared(path[k], h.Loaded())
  {
    hide Inv, Shared, Step, Boots, Anchored;
    if k == 0 {
      var boots :| Boots(h, boots, path[0]);
      BootedInv(h, boots, path[0]);
    } else {
      PathShares(h, path, k - 1);
      PathInv(h, path, k - 1);
      assert Advances(h, path, k - 1);
      StepShares(h.at, path[k - 1], h.events[k - 1], h.Loaded());
    }
  }

  /** s is reached by a history in which no process loaded at boot exits. */
  ghost predicate ReachedStaying(h: History, s: KState) {
    exists path :: Execution(h, path) && LoadedStay(h, path) && path[|h.events|] == s
  }

  lemma ReachedShared(h: History, s: KState)
    requires ReachedStaying(h, s)
    ensures Reached(h, s) && Shared(s, h.Loaded())
  {
    hide Shared, Inv, Boots, Advances;
    var path :| Execution(h, path) && LoadedStay(h, path) && path[|h.events|] == s;
    PathShares(h, path, |h.events|);
  }

  /**
   * Isolation: while the loaded processes stay, a physical page that one process can write is
   * not mapped for user code by any other process, the console page aside.
   */
  lemma Isolation(h: History, s: KState, p: nat, v: nat, q: nat, x: nat, f: nat)
    requires ReachedStaying(h, s)
    requires p in Live(s) && q in Live(s) && p != q && v < L1_PAGES && x < L1_PAGES
    requires UserWrites(s, p, v, f) && UserMaps(s, q, x, f)
    ensures f == CONSOLE
  {
    ReachedShared(h, s);
    WalkIsEntry(s, p, v);
    WalkIsEntry(s, q, x);
    assert Alone(s, p, v, q, x);
  }

  // ---------------------------------------------------------------- what processes see

  /** What a process finds at a page: its contents and its W and U permissions. */
  datatype View = Nothing | Visible(page: Page, w: bool, u: bool)

  ghost function Sees(s: KState, p: nat, v: nat): View
    requires p < NPROC && v < L1_PAGES
  {
    var e := Walk(s.mem, s.procs[p].pagetable, v);
    if e.perm.p && e.frame < NPAGES then Visible(s.mem[e.frame], e.perm.w, e.perm.u) else Nothing
  }

  /** A user store by one process is invisible to every other process, the console aside. */
  lemma StoreInvisible(h: History, s: KState, vpn: nat, i: nat, w: Word, q: nat, x: nat)
    requires ReachedStaying(h, s) && s.procs[s.current].state.Runnable? && vpn < L1_PAGES && i < NENTRIES
    requires q in Live(s) && q != s.current && x < L1_PAGES
    ensures Sees(s, q, x).Visible? && Sees(s, q, x).u && !UserMaps(s, q, x, CONSOLE) ==>
            Sees(UserStore(s, vpn, i, w), q, x) == Sees(s, q, x)
  {
    ReachedShared(h, s);
    ReachedInv(h, s);
    UserStoreInv(s, vpn, i, w);
    var t := UserStore(s, vpn, i, w);
    assert SameView(s, t, q);
    WalkIsEntry(s, q, x);
    WalkIsEntry(t, q, x);
    var e := Walk(s.mem, s.procs[s.current].pagetable, vpn);
    CurrentLives(s);
    if e.perm.p && e.perm.w && e.perm.u && UserMaps(s, q, x, e.frame) {
      Isolation(h, s, s.current, vpn, q, x, e.frame);
    }
  }

  /** A fork trap never stops the machine: the kernel returns to the parent, in the state fork left. */
  lemma ForkCallReturns(at: Layout, s: KState, regs: Registers)
    requires Good(s) && Anchored(at, s)
    ensures var s1 := Saved(s, regs);
      && Inv(s1) && Live(s1) == Live(s) && s1.current in Live(s1) && Fork(s1).Done?
      && Exception(at, s, ForkCall, regs) == Done(Fork(s1).state, 0)
  {
    hide Core, Fork, SameViews, VirtualMemoryCheck, PagetableOk, RunProcess, AnchoredAt, Firm, Schedule;
    var s1 := Saved(s, regs);
    SavedInv(at, s, s1);
    ExceptionInv(at, s, ForkCall, regs);
    ForkAnchors(at, s1);
    CurrentLives(s1);
    RunsOn(at, Fork(s1).state);
  }

  /** run() of a process that is current already changes nothing. */
  lemma RunsOn(at: Layout, s: KState)
    ensures RunProcess(at, s, s.current) in {Done(s, 0), Panic}
  {}

  /** fork's child, if it was built: the first free process slot, in use afterwards. */
  function ForkedChild(s: KState, t: KState): int {
    var slot := FreeSlot(s.procs, 1);
    if slot != -1 && !t.procs[slot].state.Free? then slot else -1
  }

  /** Which way a fork trap went shows in its child's slot. */
  lemma ForkTrap(at: Layout, s: KState, regs: Registers)
    requires Good(s) && Anchored(at, s)
    ensures Exception(at, s, ForkCall, regs).Done?
    ensures var s1, t := Saved(s, regs), Exception(at, s, ForkCall, regs).state;
      && t == Fork(s1).state && Inv(s1) && Inv(t) && SameViews(s, s1, Live(s)) && Live(s1) == Live(s)
           && s.current in Live(s)
      && (var slot := FreeSlot(s.procs, 1);
          if slot == -1 then t == s1
          else if ForkedChild(s, t) == -1 then Fork(s1).Done? && Fork(s1).ret == -1 && RolledBack(s1, t, slot)
          else Fork(s1).Done? && Fork(s1).ret != -1 && ForkedChild(s, t) == slot && Forked(s1, t, slot))
  {
    hide Core, Fork, SameViews, Exception, InheritsFrom, Firm, AnchoredAt;
    var s1 := Saved(s, regs);
    ForkCallReturns(at, s, regs);
    CurrentLives(s);
    DescriptorsKeep(s, s1);
    SameSlot(s.procs, s1.procs, 1);
    ForkOutcome(s1);
  }

  lemma {:induction false} SameSlot(a: seq<Proc>, b: seq<Proc>, i: nat)
    requires |a| == |b| && i <= |a| && forall k :: 0 <= k < |a| ==> (a[k].state.Free? <==> b[k].state.Free?)
    ensures FreeSlot(a, i) == FreeSlot(b, i)
    decreases |a| - i
  {
    if i < |a| {
      SameSlot(a, b, i + 1);
    }
  }

  /**
   * Fork preserves meaning: after the trap the child sees at every page of process memory the
   * contents and permissions its parent saw; the parent, which runs on, and all other processes keep
   * their mappings and the contents of their user pages; the registers saved at the trap agree except for
   * eax, which is 0 in the child and the child's number in the parent.
   */
  lemma ForkPreservesMeaning(h: History, s: KState, regs: Registers, v: nat, q: nat, x: nat)
    requires ReachedStaying(h, s) && s.procs[s.current].state.Runnable?
    requires PROC_PAGES <= v < VIRT_PAGES && q in Live(s) && x < L1_PAGES
    ensures Exception(h.at, s, ForkCall, regs).Done?
    ensures
      var t := Exception(h.at, s, ForkCall, regs).state;
      var c, p := ForkedChild(s, t), s.current;
      c != -1 ==>
        && 1 <= c < NPROC && c != p && s.procs[c].state.Free? && t.procs[c].state.Runnable? && t.current == p
        && Live(t) == Live(s) + {c} && Sees(t, c, v) == Sees(s, p, v)
        && Walk(t.mem, t.procs[q].pagetable, x) == Walk(s.mem, s.procs[q].pagetable, x)
        && (Sees(s, q, x).Visible? && Sees(s, q, x).u ==> Sees(t, q, x) == Sees(s, q, x))
        && (q != p ==> t.procs[q] == s.procs[q])
        && t.procs[c].regs == regs.(eax := 0) && t.procs[p].regs == regs.(eax := c)
  {
    hide Core, Reached, ReachedStaying, SameViews, Exception, Fork, InheritsFrom, Firm, Sees, Walk;
    ReachedShared(h, s);
    ReachedInv(h, s);
    CurrentLives(s);
    ForkTrap(h.at, s, regs);
    var s1, t := Saved(s, regs), Exception(h.at, s, ForkCall, regs).state;
    if ForkedChild(s, t) != -1 {
      SameShares(s, s1, h.Loaded());
      ForkView(s1, t, ForkedChild(s, t), h.Loaded(), v);
      KeptView(s1, t, ForkedChild(s, t), h.Loaded(), q, x);
      SavedSees(s, regs, s.current, v);
      SavedSees(s, regs, q, x);
    }
  }

  lemma SavedSees(s: KState, regs: Registers, q: nat, v: nat)
    requires q < NPROC && v < L1_PAGES
    ensures Sees(Saved(s, regs), q, v) == Sees(s, q, v)
    ensures Saved(s, regs).procs[q].pagetable == s.procs[q].pagetable && Saved(s, regs).mem == s.mem
  {}

  lemma ForkView(s: KState, t: KState, c: nat, loaded: set<nat>, v: nat)
    requires Shared(s, loaded) && Inv(t) && Forked(s, t, c) && PROC_PAGES <= v < VIRT_PAGES
    ensures Sees(t, c, v) == Sees(s, s.current, v)
  {
    var p := s.current;
    assert Inherits(s, t, p, c, v) && EntryOk(s, p, v) && EntryOk(t, c, v);
    assert ReadOnlyOwned(s, p, v, loaded);
    WalkIsEntry(s, p, v);
    WalkIsEntry(t, c, v);
    var e := Entry(s, p, v);
    if e.perm.p {
      assert PageOk(s.pageinfo[e.frame], Live(s));
    }
  }

  lemma KeptView(s: KState, t: KState, c: nat, loaded: set<nat>, q: nat, x: nat)
    requires Shared(s, loaded) && Inv(t) && Forked(s, t, c) && q in Live(s) && x < L1_PAGES
    ensures Walk(t.mem, t.procs[q].pagetable, x) == Walk(s.mem, s.procs[q].pagetable, x)
    ensures Sees(s, q, x).Visible? && Sees(s, q, x).u ==> Sees(t, q, x) == Sees(s, q, x)
  {
    hide InheritsFrom;
    assert SameView(s, t, q);
    WalkIsEntry(s, q, x);
    WalkIsEntry(t, q, x);
    if x < NENTRIES {
      assert ReadOnlyOwned(s, q, x, loaded) && EntryOk(s, q, x);
      var e := Entry(s, q, x);
      if e.perm.p {
        assert PageOk(s.pageinfo[e.frame], Live(s));
      }
    }
  }

  /**
   * In any run, with loaded processes exiting or not: a fork trap that finds a slot but runs out of
   * pages leaves the owner of every page, the free pages, the contents of pages in use and every
   * process's mappings as they were; the parent sees -1.
   */
  lemma FailedForkRollsBack(h: History, s: KState, regs: Registers, p: nat, v: nat)
    requires Reached(h, s) && s.procs[s.current].state.Runnable? && p in Live(s) && v < L1_PAGES
    ensures Exception(h.at, s, ForkCall, regs).Done?
    ensures
      var t := Exception(h.at, s, ForkCall, regs).state;
      FreeSlot(s.procs, 1) != -1 && ForkedChild(s, t) == -1 ==>
        && (forall f :: 0 <= f < NPAGES ==> t.pageinfo[f].owner == s.pageinfo[f].owner)
        && (forall f :: 0 <= f < NPAGES ==> (t.pageinfo[f].refcount == 0 <==> s.pageinfo[f].refcount == 0))
        && (forall f :: 0 <= f < NPAGES && s.pageinfo[f].owner != PO_FREE ==> t.mem[f] == s.mem[f])
        && Walk(t.mem, t.procs[p].pagetable, v) == Walk(s.mem, s.procs[p].pagetable, v)
        && Live(t) == Live(s) && t.procs[s.current].regs == regs.(eax := EAX_ERROR)
  {
    hide Core, Reached, SameViews, Exception, Fork, Firm, Forked;
    ReachedInv(h, s);
    ForkTrap(h.at, s, regs);
    var s1, t := Saved(s, regs), Exception(h.at, s, ForkCall, regs).state;
    if FreeSlot(s.procs, 1) != -1 && ForkedChild(s, t) == -1 {
      RolledBackViews(s1, t, p, v);
    }
  }

  lemma RolledBackViews(s: KState, t: KState, p: nat, v: nat)
    requires Inv(s) && Inv(t) && SameViews(s, t, Live(s)) && Live(t) == Live(s) && p in Live(s) && v < L1_PAGES
    requires forall f :: 0 <= f < NPAGES ==> t.pageinfo[f].owner == s.pageinfo[f].owner
    ensures Walk(t.mem, t.procs[p].pagetable, v) == Walk(s.mem, s.procs[p].pagetable, v)
    ensures forall f :: 0 <= f < NPAGES ==> (t.pageinfo[f].refcount == 0 <==> s.pageinfo[f].refcount == 0)
  {
    assert SameView(s, t, p);
    WalkIsEntry(s, p, v);
    WalkIsEntry(t, p, v);
    forall f | 0 <= f < NPAGES ensures t.pageinfo[f].refcount == 0 <==> s.pageinfo[f].refcount == 0 {
      assert PageOk(s.pageinfo[f], Live(s)) && PageOk(t.pageinfo[f], Live(t));
    }
  }

  /** Saving the registers touches neither memory nor mappings. */
  lemma SavedEntries(s: KState, regs: Registers)
    requires Inv(s) && s.current in Live(s)
    ensures var s1 := Saved(s, regs);
      && SameEntries(s, s1) && ForkStops(s1) == ForkStops(s) && (RoomForChild(s1) <==> RoomForChild(s))
      && forall f, stop {:trigger LosesReference(s1, f, stop)} ::
           0 <= f < NPAGES ==> (LosesReference(s1, f, stop) <==> LosesReference(s, f, stop))
  {
    hide Core, Live, ForkStops, RoomForChild, TableOk;
    CurrentTable(s);
    var s1 := Saved(s, regs);
    SavedTable(s, regs);
    ForkStopsSame(s, s1);
    StopsExactly(s);
    StopsExactly(s1);
    forall f | 0 <= f < NPAGES ensures SharesAt(s1, f) <==> SharesAt(s, f) {}
  }

  lemma SavedTable(s: KState, regs: Registers)
    requires TableOk(s, s.current)
    ensures SameEntries(s, Saved(s, regs))
  {}

  /**
   * A fork trap builds a child exactly if a process slot is free, two frames are for its page tables,
   * and one more for each page of process memory that the parent can write.
   */
  lemma ForkBuildsExactly(h: History, s: KState, regs: Registers)
    requires Reached(h, s) && s.procs[s.current].state.Runnable?
    ensures Exception(h.at, s, ForkCall, regs).Done? && TableOk(s, s.current)
    ensures ForkedChild(s, Exception(h.at, s, ForkCall, regs).state) != -1 <==>
              (exists i :: 1 <= i < NPROC && s.procs[i].state.Free?) && RoomForChild(s)
  {
    hide Core, Reached, SameViews, Exception, Fork, Firm, Forked, RoomForChild, Live, TableOk;
    ReachedInv(h, s);
    ForkTrap(h.at, s, regs);
    CurrentTable(s);
    SavedEntries(s, regs);
    var s1 := Saved(s, regs);
    SameSlot(s.procs, s1.procs, 1);
    ForkSucceedsExactly(s1);
    ForkOutcome(s1);
    var slot := FreeSlot(s.procs, 1);
    if slot != -1 {
      assert s.procs[slot].state.Free?;
    }
  }

  /**
   * The one thing a failed fork does not roll back: of each process page used more than once its loop
   * takes one reference too many, unless it is a page shared before the loop stopped. Where it stops
   * is given by the free frames and the parent's mappings before the trap.
   */
  lemma FailedForkLosesCounts(h: History, s: KState, regs: Registers)
    requires Reached(h, s) && s.procs[s.current].state.Runnable?
    ensures Exception(h.at, s, ForkCall, regs).Done? && TableOk(s, s.current)
    ensures
      var t := Exception(h.at, s, ForkCall, regs).state;
      FreeSlot(s.procs, 1) != -1 && ForkedChild(s, t) == -1 ==>
        forall f :: 0 <= f < NPAGES && s.pageinfo[f].owner != PO_FREE ==>
          t.pageinfo[f].refcount == s.pageinfo[f].refcount - if LosesReference(s, f, ForkStops(s)) then 1 else 0
  {
    hide Core, Reached, SameViews, Exception, Fork, Firm, Forked, RolledBack, LosesReference, ForkStops, Live, TableOk;
    ReachedInv(h, s);
    ForkTrap(h.at, s, regs);
    CurrentTable(s);
    SavedEntries(s, regs);
    var s1, t := Saved(s, regs), Exception(h.at, s, ForkCall, regs).state;
    SameSlot(s.procs, s1.procs, 1);
    if FreeSlot(s.procs, 1) != -1 && ForkedChild(s, t) == -1 {
      FailedForkCounts(s1);
      forall f | 0 <= f < NPAGES && s.pageinfo[f].owner != PO_FREE
        ensures t.pageinfo[f].refcount == s.pageinfo[f].refcount - if LosesReference(s, f, ForkStops(s)) then 1 else 0
      {
        assert LosesReference(s1, f, ForkStops(s)) <==> LosesReference(s, f, ForkStops(s));
      }
    }
  }

  /**
   * fork reports failure in eax exactly when it found a process slot: with every slot taken it
   * returns -1 and leaves eax as the caller set it, so the caller does not see the failure.
   */
  lemma ForkFailureReported(h: History, s: KState, regs: Registers)
    requires Reached(h, s) && s.procs[s.current].state.Runnable? && regs.eax != EAX_ERROR
    ensures Exception(h.at, s, ForkCall, regs).Done?
    ensures
      var t := Exception(h.at, s, ForkCall, regs).state;
      ForkedChild(s, t) == -1 ==>
        (t.procs[s.current].regs.eax == EAX_ERROR <==> exists i :: 1 <= i < NPROC && s.procs[i].state.Free?)
  {
    hide Core, Reached, SameViews, Exception, Fork, Firm, Forked;
    ReachedInv(h, s);
    ForkTrap(h.at, s, regs);
    var slot := FreeSlot(s.procs, 1);
    if slot != -1 {
      assert s.procs[slot].state.Free?;
    }
  }
}
