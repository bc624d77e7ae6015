/**
 * Kernel memory over whole runs: no trap and no store changes who owns a reserved or kernel page, or
 * what such a page other than the console holds (pset6/kernel.c:83-113, 316-429, 460-475).
 */
module KernelIntegrity {
  import opened Machine
  import opened Paging
  import opened KernelSpec
  import opened KernelInvariant
  import opened KernelFork
  import opened KernelAnchors
  import opened KernelSteps
  import opened KernelSharing
  import opened KernelBoot
  import opened KernelRuns
  import opened KernelTraps
  import opened KernelLoading

  /** From s to t, pages that are reserved or the kernel's stay so, with their contents, the console's aside. */
  ghost predicate KernelKept(s: KState, t: KState) {
    t.kpt == s.kpt && forall f :: 0 <= f < NPAGES && s.pageinfo[f].owner < 0 ==>
      t.pageinfo[f] == s.pageinfo[f] && (f != CONSOLE ==> t.mem[f] == s.mem[f])
  }

  lemma KernelKeptTrans(s: KState, t: KState, u: KState)
    requires KernelKept(s, t) && KernelKept(t, u)
    ensures KernelKept(s, u)
  {}

  // ---------------------------------------------------------------- traps and stores

  lemma ForkKeepsKernel(s: KState)
    requires Inv(s) && s.current in Live(s)
    ensures Fork(s).Done? && KernelKept(s, Fork(s).state)
  {
    hide Inv, Live, Fork, Forked, RolledBack, KernelKept;
    ForkOutcome(s);
    var slot := FreeSlot(s.procs, 1);
    if slot != -1 {
      OwnersStay(s, Fork(s).state, slot);
    } else {
      NothingChanged(s);
    }
  }

  lemma NothingChanged(s: KState)
    ensures KernelKept(s, s)
  {}

  lemma OwnersStay(s: KState, t: KState, slot: nat)
    requires Inv(s) && Inv(t) && (RolledBack(s, t, slot) || Forked(s, t, slot))
    ensures KernelKept(s, t)
  {
    hide Core, SameViews, InheritsFrom;
    CoreBounds(s, Live(s), Live(s));
    CoreBounds(t, Live(t), Live(t));
    forall f | 0 <= f < NPAGES && s.pageinfo[f].owner < 0 ensures t.pageinfo[f] == s.pageinfo[f] {
      assert PageOk(s.pageinfo[f], Live(s)) && PageOk(t.pageinfo[f], Live(t));
    }
  }

  lemma PageAllocKeepsKernel(s: KState)
    requires Good(s) && PageAlloc(s).Done?
    ensures KernelKept(s, PageAlloc(s).state)
  {
    hide Core, SameViews, PageAlloc;
    PageAllocInv(s);
    PageAllocKeeps(s);
  }

  lemma HandleKeepsKernel(at: Layout, s: KState, t: Trap)
    requires Good(s) && Anchored(at, s)
    ensures var r := Handle(at, s, t); !r.Panic? ==> KernelKept(s, r.state)
  {
    hide Core, SameViews, Schedule, PageAlloc, Fork, Anchored;
    CurrentLives(s);
    match t
    case Yield => ScheduleInv(at, s);
    case Timer => ScheduleInv(at, s);
    case PageAllocation =>
      if PageAlloc(s).Done? {
        PageAllocKeepsKernel(s);
      } else {
        PageAllocInv(s);
      }
    case ForkCall =>
      ForkOutcome(s);
      ForkKeepsKernel(s);
    case _ =>
  }

  lemma StepKeepsKernel(at: Layout, s: KState, e: Event)
    requires Good(s) && Anchored(at, s) && e.Possible()
    ensures var r := Step(at, s, e); !r.Panic? ==> KernelKept(s, r.state)
  {
    hide Inv, Anchored, Handle, Exception, Schedule, UserStore, KernelKept;
    match e
    case Stored(vpn, i, w) => StoreKeepsKernel(s, vpn, i, w);
    case Trapped(t, regs) =>
      ExceptionInv(at, s, t, regs);
      if !Exception(at, s, t, regs).Panic? {
        TrapHandled(at, s, t, regs);
        var s1 := Saved(s, regs);
        HandleKeepsKernel(at, s1, t);
        HandleInv(at, s1, t);
        var r := Handle(at, s1, t);
        SavedKeepsKernel(s, regs, r.state);
        if r.Done? && !r.state.procs[r.state.current].state.Runnable? {
          ScheduleInv(at, r.state);
          CurrentKeepsKernel(s, r.state, Schedule(at, r.state).state);
        }
      }
  }

  lemma SavedKeepsKernel(s: KState, regs: Registers, t: KState)
    requires KernelKept(Saved(s, regs), t)
    ensures KernelKept(s, t)
  {}

  lemma CurrentKeepsKernel(s: KState, t: KState, u: KState)
    requires KernelKept(s, t) && u == t.(current := u.current)
    ensures KernelKept(s, u)
  {}

  lemma StoreKeepsKernel(s: KState, vpn: nat, i: nat, w: Word)
    requires Good(s) && vpn < L1_PAGES && i < NENTRIES
    ensures KernelKept(s, UserStore(s, vpn, i, w))
  {
    hide Core;
    CurrentLives(s);
    LiveTable(s, s.current);
    WalkIsEntry(s, s.current, vpn);
    if vpn < NENTRIES {
      EntryOkAt(s, s.current, vpn);
    }
  }

  // ---------------------------------------------------------------- runs

  lemma SetupKeepsKernel(at: Layout, s: KState, pid: nat, prog: Program, loaded: set<nat>)
    requires Inv(s) && Sharing(s, Live(s), Live(s), loaded) && Anchored(at, s)
    requires 1 <= pid < NPROC && pid !in Live(s) && ProgramOk(prog)
    ensures var r := ProcessSetup(s, pid, prog); r.Done? && r.ret == 0 ==> KernelKept(s, r.state)
  {
    hide Core, Sharing, ProcessSetup, Live, Firm, ReadyToStart, Fresh;
    SetupPrepares(at, s, pid, prog, loaded);
    ProcessSetupInv(at, s, pid, prog, loaded);
    AnchoredKpt(at, s);
    var r := ProcessSetup(s, pid, prog);
    if r.Done? && r.ret == 0 {
      AnchoredKpt(at, r.state);
    }
  }

  lemma {:induction false} BootsKeepKernel(h: History, boots: seq<KState>, k: nat)
    requires h.Ok() && k <= |h.programs| && SetUpTo(h, boots, k)
    ensures KernelKept(InitialState(h.at, h.ram), boots[k])
  {
    hide Inv, Sharing, ProcessSetup, InitialState, Live, Anchored;
    if k > 0 {
      BootsKeepKernel(h, boots, k - 1);
      BootsInv(h, boots, k - 1);
      assert SetsUp(h, boots, k - 1);
      SetupKeepsKernel(h.at, boots[k - 1], k, h.programs[k - 1], UpTo(k));
      KernelKeptTrans(InitialState(h.at, h.ram), boots[k - 1], boots[k]);
    }
  }

  lemma {:induction false} PathKeepsKernel(h: History, path: seq<KState>, k: nat)
    requires Execution(h, path) && k <= |h.events|
    ensures KernelKept(InitialState(h.at, h.ram), path[k])
  {
    hide Inv, Step, Anchored, InitialState, KernelKept, SetsUp;
    if k == 0 {
      var boots :| Boots(h, boots, path[0]);
      BootsKeepKernel(h, boots, |h.programs|);
      CurrentKeepsKernel(InitialState(h.at, h.ram), boots[|h.programs|], path[0]);
    } else {
      PathKeepsKernel(h, path, k - 1);
      PathInv(h, path, k - 1);
      assert Advances(h, path, k - 1);
      StepKeepsKernel(h.at, path[k - 1], h.events[k - 1]);
      KernelKeptTrans(InitialState(h.at, h.ram), path[k - 1], path[k]);
    }
  }

  /**
   * Kernel memory is out of reach: in every reachable state the first page, the pages from the console's
   * region to PROC_START_ADDR, the kernel's image and its stack are still reserved or the kernel's, and hold
   * what they held at power-on, the console and the kernel's two page tables aside; these tables still map
   * physical memory to itself, the pages below PROC_START_ADDR for the kernel only but for the console.
   */
  lemma KernelMemoryStays(h: History, s: KState, f: nat)
    requires Reached(h, s) && f < NPAGES
    ensures f == 0 || 0xA0 <= f < PROC_PAGES ==> s.pageinfo[f] == PageInfo(PO_RESERVED, 1)
    ensures (0x40 <= f < h.at.kend || f == 0x80 - 1) && !(0xA0 <= f < PROC_PAGES) ==>
              s.pageinfo[f] == PageInfo(PO_KERNEL, 1)
    ensures f == 0 || 0x40 <= f < h.at.kend || f == 0x80 - 1 || 0xA0 <= f < PROC_PAGES ==>
              f == CONSOLE || f == h.at.kpt || f == h.at.kl2 || s.mem[f] == h.ram[f]
    ensures s.kpt == h.at.kpt && Walk(s.mem, s.kpt, f) == Word(f, Perm(true, true, f >= PROC_PAGES || f == CONSOLE, 0))
  {
    hide Reached, Walk, InitialState, RootPage, KernelLow;
    ReachedKeepsKernel(h, s);
    AtPowerOn(h, f);
    AtPowerOn(h, h.at.kpt);
    AtPowerOn(h, h.at.kl2);
    TablesStay(h, s, f);
  }

  lemma ReachedKeepsKernel(h: History, s: KState)
    requires Reached(h, s)
    ensures h.Ok() && KernelKept(InitialState(h.at, h.ram), s)
  {
    hide Advances, Boots, KernelKept;
    var path :| Execution(h, path) && path[|h.events|] == s;
    PathKeepsKernel(h, path, |h.events|);
  }

  lemma AtPowerOn(h: History, f: nat)
    requires h.Ok() && f < NPAGES
    ensures var s := InitialState(h.at, h.ram);
      && s.kpt == h.at.kpt && s.pageinfo[f] == InitialPage(f, h.at.kend)
      && s.mem[f] == if f == h.at.kpt then RootPage(h.at.kl2) else if f == h.at.kl2 then KernelLow() else h.ram[f]
  {}

  lemma TablesStay(h: History, s: KState, v: nat)
    requires s.kpt == h.at.kpt && s.mem[s.kpt] == RootPage(h.at.kl2) && s.mem[h.at.kl2] == KernelLow() && v < NPAGES
    ensures Walk(s.mem, s.kpt, v) == Word(v, Perm(true, true, v >= PROC_PAGES || v == CONSOLE, 0))
  {
    assert L1Index(v) == 0 && L2Index(v) == v;
  }

  /**
   * fork's child maps kernel memory as a new process does, whatever its parent has mapped over it, and has
   * nothing behind process memory.
   */
  lemma ChildLowMemory(h: History, s: KState, regs: Registers)
    requires Reached(h, s) && s.procs[s.current].state.Runnable?
    ensures Exception(h.at, s, ForkCall, regs).Done?
    ensures
      var t := Exception(h.at, s, ForkCall, regs).state;
      var c := ForkedChild(s, t);
      c != -1 ==> LowMemory(t, c) && forall v :: VIRT_PAGES <= v < L1_PAGES ==> Sees(t, c, v) == Nothing
  {
    hide Core, Reached, SameViews, Exception, Fork, Firm, RolledBack, InheritsFrom, Walk;
    ReachedInv(h, s);
    ForkTrap(h.at, s, regs);
    var t := Exception(h.at, s, ForkCall, regs).state;
    var c := ForkedChild(s, t);
    if c != -1 {
      LiveTable(t, c);
      forall v | 0 <= v < L1_PAGES && !(PROC_PAGES <= v < VIRT_PAGES)
        ensures Walk(t.mem, t.procs[c].pagetable, v) == if v < NENTRIES then LowEntry(v) else ABSENT
      {
        WalkIsEntry(t, c, v);
      }
    }
  }
}
