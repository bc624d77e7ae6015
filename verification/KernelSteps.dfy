/**
 * Every kernel entry and every user store keeps the invariant; virtual_memory_check
 * never fails (pset6/kernel.c:209-237, 316-429, 482-541).
 */
module KernelSteps {
  import opened Machine
  import opened Paging
  import opened KernelSpec
  import opened KernelInvariant
  import opened KernelFork
  import opened KernelAnchors

  /** A state in which user code runs. */
  ghost predicate Good(s: KState) {
    Inv(s) && s.procs[s.current].state.Runnable?
  }

  lemma CurrentLives(s: KState)
    requires Good(s)
    ensures s.current in Live(s)
  {}

  /** Changing registers, `current`, or a non-free state into another one. */
  lemma DescriptorsKeep(s: KState, t: KState)
    requires Inv(s) && t.pageinfo == s.pageinfo && t.mem == s.mem && t.kpt == s.kpt
    requires forall p :: 0 <= p < NPROC ==>
               && t.procs[p].pid == s.procs[p].pid && t.procs[p].pagetable == s.procs[p].pagetable
               && (t.procs[p].state.Free? <==> s.procs[p].state.Free?)
    ensures Inv(t) && Live(t) == Live(s) && SameViews(s, t, Live(s))
  {
    hide Core, SameViews;
    assert Live(t) == Live(s);
    CoreBounds(s, Live(s), Live(s));
    ProcsKeep(s, Live(s), Live(s), t);
  }

  /** sys_exit of a live process. */
  lemma ExitInv(s: KState, pid: nat)
    requires Inv(s) && pid in Live(s)
    ensures Inv(Exit(s, pid)) && Live(Exit(s, pid)) == Live(s) - {pid} && SameViews(s, Exit(s, pid), Live(s) - {pid})
  {
    hide Core, SameViews;
    ExitKeeps(s, Live(s), Live(s), pid);
    ExitLive(s, pid);
  }

  /** The page tables and pages after a page-allocation call that returned 0. */
  ghost predicate Allocated(s: KState, t: KState, v: nat, f: nat) {
    && s.current in Live(s) && s.current < NPROC && v < NENTRIES && f < NPAGES
    && s.pageinfo[f].owner == PO_FREE
    && t.pageinfo == s.pageinfo[f := PageInfo(s.current, 1)]
    && SameViews(s, t, Live(s) - {s.current})
    && TableOk(s, s.current) && TableOk(t, s.current) && Level2(t, s.current) == Level2(s, s.current)
    && t.mem == s.mem[Level2(s, s.current) := t.mem[Level2(s, s.current)]]
    && forall x :: 0 <= x < NENTRIES ==>
         Entry(t, s.current, x) == if x == v then Word(f, PWU) else Entry(s, s.current, x)
  }

  /** virtual_memory_map of one page succeeds in a valid table exactly for aligned addresses below 4 MB. */
  lemma MapPageOk(s: KState, p: nat, va: nat, f: nat, perm: Perm)
    requires p < NPROC && TableOk(s, p) && f < NPAGES && perm.p
    ensures MapPage(s, p, va, f * PAGESIZE, perm).Done? <==> PageOffset(va) == 0 && PageNumber(va) < NENTRIES
  {
    if PageOffset(va) == 0 && PageNumber(va) < NENTRIES {
      MapOne(s, p, PageNumber(va), f, perm);
    } else if MapRequestOk(va, f * PAGESIZE, PAGESIZE, perm) {
      assert L1Index(PageNumber(va)) > 0;
    }
  }

  lemma PageAllocInv(s: KState)
    requires Good(s)
    ensures var r := PageAlloc(s);
            var va := s.procs[s.current].regs.eax;
            var f := FirstFree(s.pageinfo, 0, NPAGES);
            if f == -1 then r == Done(SetEax(s, s.current, EAX_ERROR), -1) && Inv(r.state)
            else if PageOffset(va) == 0 && PageNumber(va) < NENTRIES then
              && r.Done? && Inv(r.state) && Live(r.state) == Live(s) && Allocated(s, r.state, PageNumber(va), f)
              && r.state.procs == SetEax(s, s.current, 0).procs && r.state.current == s.current
            else r.Panic?
  {
    hide Core, SameViews, SetEax, MapPage;
    var p := s.current;
    var live := Live(s);
    CoreBounds(s, live, live);
    AllocKeeps(s, live, live, NPAGES, p);
    var (s1, f) := AllocFree(s, NPAGES, p);
    if f == -1 {
      NoPage(s);
    } else {
      ViewOf(s, s1, live, p);
      var va := s.procs[p].regs.eax;
      MapPageOk(s1, p, va, f, PWU);
      if PageOffset(va) == 0 && PageNumber(va) < NENTRIES {
        PageAllocMaps(s, s1, PageNumber(va), f);
      }
    }
  }

  lemma NoPage(s: KState)
    requires Good(s) && AllocFree(s, NPAGES, s.current).1 == -1
    ensures FirstFree(s.pageinfo, 0, NPAGES) == -1 && Inv(SetEax(s, s.current, EAX_ERROR))
  {
    CoreBounds(s, Live(s), Live(s));
    DescriptorsKeep(s, SetEax(s, s.current, EAX_ERROR));
  }

  lemma PageAllocMaps(s: KState, s1: KState, v: nat, f: nat)
    requires Good(s) && (s1, f) == AllocFree(s, NPAGES, s.current) && v < NENTRIES && s.current in Live(s)
    requires Core(s1, Live(s), Live(s)) && SameView(s, s1, s.current) && SameViews(s, s1, Live(s))
    ensures MapPage(s1, s.current, v * PAGESIZE, f * PAGESIZE, PWU).Done?
    ensures var t := SetEax(MapPage(s1, s.current, v * PAGESIZE, f * PAGESIZE, PWU).state, s.current, 0);
            && Inv(t) && Live(t) == Live(s) && Allocated(s, t, v, f)
            && t.procs == SetEax(s, s.current, 0).procs && t.current == s.current
  {
    hide Core, SameViews;
    var p := s.current;
    var live := Live(s);
    MapOne(s1, p, v, f, PWU);
    FreshOk(s, s1, v, f);
    PutKeeps(s1, live, live, p, v, Word(f, PWU));
    var u := MapPage(s1, p, v * PAGESIZE, f * PAGESIZE, PWU).state;
    SubsetViews(s, s1, live, live - {p});
    SameViewsTrans(s, s1, u, live - {p});
    var t := SetEax(u, p, 0);
    assert Inv(u) by { assert Live(u) == live; }
    DescriptorsKeep(u, t);
    SubsetViews(u, t, live, live - {p});
    SameViewsTrans(s, u, t, live - {p});
  }

  lemma FreshOk(s: KState, s1: KState, v: nat, f: nat)
    requires Good(s) && (s1, f) == AllocFree(s, NPAGES, s.current) && SameView(s, s1, s.current)
    requires Core(s1, Live(s), Live(s)) && v < NENTRIES
    ensures WordOk(s1, s.current, v, Word(f, PWU))
  {
    NotTables(s, Live(s), Live(s), f);
  }

  /** A user store only reaches pages the process may write: never a page table. */
  lemma UserStoreInv(s: KState, vpn: nat, i: nat, w: Word)
    requires Good(s) && vpn < L1_PAGES && i < NENTRIES
    ensures Good(UserStore(s, vpn, i, w)) && Live(UserStore(s, vpn, i, w)) == Live(s)
    ensures SameViews(s, UserStore(s, vpn, i, w), Live(s))
  {
    var p := s.current;
    var t := UserStore(s, vpn, i, w);
    WalkIsEntry(s, p, vpn);
    var e := Walk(s.mem, s.procs[p].pagetable, vpn);
    if e.perm.p && e.perm.w && e.perm.u {
      assert EntryOk(s, p, vpn);
      forall q | q in Live(s) ensures !IsTable(s, q, e.frame) {
        assert TableOk(s, q);
      }
      FillKeeps(s, Live(s), Live(s), t.mem);
    } else {
      DescriptorsKeep(s, s);
    }
    assert Live(t) == Live(s);
  }

  ghost predicate IsTable(s: KState, p: nat, f: nat)
    requires p < NPROC
  {
    f == s.procs[p].pagetable || f == Level2(s, p)
  }

  // ---------------------------------------------------------------- virtual_memory_check

  lemma {:induction false} NoKernelTableUsers(s: KState, i: nat)
    requires Inv(s) && i <= NPROC
    ensures KernelTableUsers(s, i) == 0
    decreases NPROC - i
  {
    if i < NPROC {
      NoKernelTableUsers(s, i + 1);
      if !s.procs[i].state.Free? {
        assert i in Live(s) && TableOk(s, i);
      }
    }
  }

  /** The assertions of virtual_memory_check hold wherever the invariant does. */
  lemma CheckHolds(s: KState)
    requires Inv(s)
    ensures VirtualMemoryCheck(s)
  {
    NoKernelTableUsers(s, 0);
    forall p | 0 <= p < NPROC ensures ProcessCheck(s, p) {
      if !s.procs[p].state.Free? {
        assert p in Live(s) && TableOk(s, p);
      }
    }
    forall f | 0 <= f < NPAGES ensures OwnerCheck(s, f) {
      assert PageOk(s.pageinfo[f], Live(s));
    }
  }

  // ---------------------------------------------------------------- one step

  /** Running a live process that still maps the pinned pages. */
  lemma RunInv(at: Layout, s: KState, p: nat)
    requires Inv(s) && s.kpt == at.kpt && p in Live(s) && s.procs[p].state.Runnable?
    ensures RunProcess(at, s, p) == if AnchoredAt(at, s, p) then Done(s.(current := p), 0) else Panic
    ensures Good(s.(current := p)) && Live(s.(current := p)) == Live(s) && SameViews(s, s.(current := p), Live(s))
  {
    hide Core, SameViews, PagetableOk, AnchoredAt;
    PagetableOkExactly(at, s, p);
    DescriptorsKeep(s, s.(current := p));
  }

  /** The scheduler finds every process it may pick ready to run. */
  lemma ScheduleInv(at: Layout, s: KState)
    requires Inv(s) && Anchored(at, s)
    ensures var r := Schedule(at, s);
      && (r.Idle? || r.Done?) && Inv(r.state) && Anchored(at, r.state) && (r.Done? ==> Good(r.state))
      && Live(r.state) == Live(s) && SameViews(s, r.state, Live(s))
      && r.state == s.(current := r.state.current)
  {
    hide Core, SameViews, RunProcess, AnchoredAt;
    var next := NextRunnable(s.procs, s.current, NPROC);
    DescriptorsKeep(s, s);
    if next != -1 {
      RunInv(at, s, next);
      AnchoredSame(at, s, s.(current := next));
    }
  }

  lemma AnchoredSame(at: Layout, s: KState, t: KState)
    requires Anchored(at, s) && Live(t) <= Live(s) && SameViews(s, t, Live(t)) && t.kpt == s.kpt
    requires forall f :: 0 <= f < NPAGES && s.pageinfo[f].owner == PO_KERNEL ==> t.pageinfo[f].owner == PO_KERNEL
    ensures Anchored(at, t)
  {
    FirmSame(at, s, t, Live(s), Live(t));
  }

  lemma SavedInv(at: Layout, s: KState, t: KState)
    requires Good(s) && Anchored(at, s) && t.pageinfo == s.pageinfo && t.mem == s.mem && t.kpt == s.kpt
    requires forall p :: 0 <= p < NPROC ==>
               && t.procs[p].pid == s.procs[p].pid && t.procs[p].pagetable == s.procs[p].pagetable
               && (t.procs[p].state.Free? <==> s.procs[p].state.Free?)
    ensures Inv(t) && Live(t) == Live(s) && Anchored(at, t)
  {
    hide Core, SameViews, Anchored;
    DescriptorsKeep(s, t);
    AnchoredSame(at, s, t);
  }

  /** The page that a page-allocation call would map is one set_pagetable needs. */
  predicate MapsOverKernel(at: Layout, s: KState) {
    FirstFree(s.pageinfo, 0, NPAGES) != -1 && Pinned(at, PageNumber(s.procs[s.current].regs.eax))
  }

  lemma PageAllocAnchors(at: Layout, s: KState)
    requires Good(s) && Anchored(at, s) && PageAlloc(s).Done?
    ensures var t := PageAlloc(s).state;
      && t.procs[s.current].state.Runnable? && t.current == s.current && Live(t) == Live(s) && t.kpt == s.kpt && Inv(t)
      && (if MapsOverKernel(at, s) then !AnchoredAt(at, t, s.current) else Anchored(at, t))
  {
    hide Core, SameViews, PageAlloc, AnchoredAt;
    PageAllocInv(s);
    PageAllocKeeps(s);
    var t := PageAlloc(s).state;
    var v, f := PageNumber(s.procs[s.current].regs.eax), FirstFree(s.pageinfo, 0, NPAGES);
    if f == -1 {
      SavedInv(at, s, t);
    } else {
      FirmOne(at, s, t, Live(s), s.current, v);
    }
  }

  lemma PageAllocKeeps(s: KState)
    requires PageAlloc(s).Done?
    ensures PageAlloc(s).state.kpt == s.kpt && PageAlloc(s).state.current == s.current
  {}

  lemma LiveTable(s: KState, p: nat)
    requires Inv(s) && p in Live(s)
    ensures TableOk(s, p)
  {}

  lemma ForkAnchors(at: Layout, s: KState)
    requires Good(s) && Anchored(at, s)
    ensures Fork(s).Done? && Inv(Fork(s).state) && Anchored(at, Fork(s).state)
    ensures Fork(s).state.procs[s.current].state.Runnable? && Fork(s).state.current == s.current
  {
    hide Core, SameViews, Fork, InheritsFrom, AnchoredAt;
    CurrentLives(s);
    ForkOutcome(s);
    var t := Fork(s).state;
    var slot := FreeSlot(s.procs, 1);
    if slot != -1 {
      if Fork(s).ret == -1 {
        AnchoredSame(at, s, t);
      } else {
        LiveTable(t, slot);
        FirmNew(at, s, t, Live(s), slot);
      }
    }
  }

  lemma ExitAnchors(at: Layout, s: KState)
    requires Good(s) && Anchored(at, s)
    ensures Inv(Exit(s, s.current)) && Anchored(at, Exit(s, s.current))
    ensures Exit(s, s.current).procs[s.current].state.Free?
  {
    hide Core, SameViews, Anchored;
    CurrentLives(s);
    ExitInv(s, s.current);
    AnchoredSame(at, s, Exit(s, s.current));
  }

  /** Exactly the requests after which the machine stops. */
  predicate StopsMachine(at: Layout, s: KState, t: Trap, regs: Registers) {
    match t
    case PageAllocation =>
      FirstFree(s.pageinfo, 0, NPAGES) != -1 &&
      (PageOffset(regs.eax) != 0 || PageNumber(regs.eax) >= NENTRIES || Pinned(at, PageNumber(regs.eax)))
    case PageFault => !UserFault(regs)
    case SysPanic => true
    case Unknown => true
    case _ => false
  }

  /** Handling a trap keeps the invariant, and the anchors unless a process mapped a page over the kernel. */
  lemma HandleInv(at: Layout, s: KState, t: Trap)
    requires Good(s) && Anchored(at, s)
    ensures var r := Handle(at, s, t); var regs := s.procs[s.current].regs;
      && (r.Done? || r.Idle? ==> Inv(r.state))
      && (r.Panic? ==> StopsMachine(at, s, t, regs))
      && (StopsMachine(at, s, t, regs) ==> r.Panic? || (t == PageAllocation && MapsOverKernel(at, s)))
      && (r.Idle? || r.Done? ==> r.state.kpt == at.kpt) && (r.Idle? ==> Anchored(at, r.state) && t != PageAllocation)
      && (r.Done? ==> if t == PageAllocation && MapsOverKernel(at, s)
                      then && r.state.procs[r.state.current].state.Runnable? && r.state.current in Live(r.state)
                           && !AnchoredAt(at, r.state, r.state.current)
                      else Anchored(at, r.state))
  {
    hide Core, Exit, Fork, PageAlloc, AnchoredAt, SameViews, Schedule;
    CurrentLives(s);
    match t
    case SysPanic =>
    case GetPid => SavedInv(at, s, SetEax(s, s.current, s.procs[s.current].pid));
    case Yield => ScheduleInv(at, s);
    case Timer => ScheduleInv(at, s);
    case PageAllocation =>
      PageAllocInv(s);
      if PageAlloc(s).Done? {
        PageAllocAnchors(at, s);
      }
    case ForkCall => ForkAnchors(at, s);
    case ExitCall => ExitAnchors(at, s);
    case PageFault => SavedInv(at, s, s.(procs := s.procs[s.current := s.procs[s.current].(state := Broken)]));
    case Unknown =>
  }

  lemma AnchoredKpt(at: Layout, s: KState)
    requires Anchored(at, s)
    ensures s.kpt == at.kpt
  {}

  /** A trap keeps the invariant and the anchors, or it stops the machine: exactly for the requests named. */
  lemma ExceptionInv(at: Layout, s: KState, t: Trap, regs: Registers)
    requires Good(s) && Anchored(at, s)
    ensures var r := Exception(at, s, t, regs);
            && (r.Done? ==> Good(r.state)) && (r.Idle? ==> Inv(r.state))
                 && (r.Done? || r.Idle? ==> Anchored(at, r.state))
            && (r.Panic? <==> StopsMachine(at, s, t, regs))
  {
    hide Core, SameViews, Handle, VirtualMemoryCheck, Schedule, RunProcess, PagetableOk, Firm, AnchoredAt;
    var s1 := Saved(s, regs);
    SavedInv(at, s, s1);
    AnchoredKpt(at, s1);
    KernelPagetableOk(at, s1) by { CoreBounds(s1, Live(s1), Live(s1)); KernelTableHolds(s1); }
    CheckHolds(s1);
    HandleInv(at, s1, t);
    var r := Handle(at, s1, t);
    if r.Done? {
      ResumeInv(at, r.state);
    }
  }

  lemma KernelTableHolds(s: KState)
    requires Inv(s)
    ensures KernelTableOk(s)
  {}

  /** The end of exception(): go on with the current process or another one. */
  lemma ResumeInv(at: Layout, s: KState)
    requires Inv(s) && s.kpt == at.kpt
    requires Anchored(at, s) || (s.procs[s.current].state.Runnable? && s.current in Live(s)
      && !AnchoredAt(at, s, s.current))
    ensures var r := if s.procs[s.current].state.Runnable? then RunProcess(at, s, s.current) else Schedule(at, s);
      && (r.Done? ==> Good(r.state)) && (r.Idle? ==> Inv(r.state)) && (r.Done? || r.Idle? ==> Anchored(at, r.state))
      && (r.Panic? <==> s.procs[s.current].state.Runnable? && !AnchoredAt(at, s, s.current))
           && (Anchored(at, s) ==> !r.Panic?)
  {
    hide Core, SameViews, Schedule, RunProcess, PagetableOk, AnchoredAt;
    if s.procs[s.current].state.Runnable? {
      assert s.current in Live(s);
      RunInv(at, s, s.current);
      if Anchored(at, s) {
        AnchoredSame(at, s, s.(current := s.current));
      }
    } else {
      ScheduleInv(at, s);
    }
  }

  /** The process j places after pid, round and round. */
  function Hop(pid: nat, j: nat): nat
    requires pid < NPROC && j <= NPROC
  {
    if pid + j < NPROC then pid + j else pid + j - NPROC
  }

  /** The process d places after pid may run, and none that comes before it in that order. */
  ghost predicate InTurn(procs: seq<Proc>, pid: nat, d: nat)
    requires |procs| == NPROC && pid < NPROC
  {
    && 1 <= d <= NPROC && procs[Hop(pid, d)].state.Runnable?
    && forall j :: 1 <= j < d ==> !procs[Hop(pid, j)].state.Runnable?
  }

  /** The scan takes the first runnable process after pid, and finds none only if none of the k is runnable. */
  lemma {:induction false} ScheduleOrder(procs: seq<Proc>, pid: nat, k: nat)
    requires |procs| == NPROC && pid < NPROC && k <= NPROC
    ensures var r := NextRunnable(procs, pid, k);
      if r == -1 then forall j :: 1 <= j <= k ==> !procs[Hop(pid, j)].state.Runnable?
      else exists d :: 1 <= d <= k && r == Hop(pid, d) && InTurn(procs, pid, d)
    decreases k
  {
    if k > 0 {
      var next := Hop(pid, 1);
      if procs[next].state.Runnable? {
        assert InTurn(procs, pid, 1) && NextRunnable(procs, pid, k) == Hop(pid, 1);
      } else {
        ScheduleOrder(procs, next, k - 1);
        assert forall j :: 1 <= j < k ==> Hop(next, j) == Hop(pid, j + 1);
        assert forall j :: 2 <= j <= k ==> Hop(pid, j) == Hop(next, j - 1);
        var r := NextRunnable(procs, pid, k);
        if r != -1 {
          var d :| 1 <= d <= k - 1 && r == Hop(next, d) && InTurn(procs, next, d);
          assert r == Hop(pid, d + 1) && InTurn(procs, pid, d + 1);
        }
      }
    }
  }

  lemma StepInv(at: Layout, s: KState, e: Event)
    requires Good(s) && Anchored(at, s) && e.Possible()
    ensures var r := Step(at, s, e);
      && (r.Done? ==> Good(r.state)) && (r.Idle? ==> Inv(r.state)) && (r.Done? || r.Idle? ==> Anchored(at, r.state))
      && (r.Panic? <==> e.Trapped? && StopsMachine(at, s, e.trap, e.regs))
  {
    match e
    case Trapped(t, regs) => ExceptionInv(at, s, t, regs);
    case Stored(vpn, i, w) =>
      hide Core, SameViews, Firm;
      UserStoreInv(s, vpn, i, w);
      AnchoredSame(at, s, UserStore(s, vpn, i, w));
  }
}
