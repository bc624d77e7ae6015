/**
 * What each trap does to the machine, over every reachable state: which process runs next, what
 * a process finds in its registers, and what an exit gives back (pset6/kernel.c:222-237, 316-429).
 */
module KernelTraps {
  import opened Machine
  import opened Paging
  import opened KernelSpec
  import opened KernelInvariant
  import opened KernelFork
  import opened KernelAnchors
  import opened KernelSteps
  import opened KernelSharing
  import opened KernelRuns

  /** The end of exception(), before run() has checked the page table. */
  function Resumed(at: Layout, s: KState): Result {
    if s.procs[s.current].state.Runnable? then Done(s, 0) else Schedule(at, s)
  }

  /** A trap that does not stop the machine is handled, and a process runs afterwards unless none can. */
  lemma TrapHandled(at: Layout, s: KState, t: Trap, regs: Registers)
    requires Good(s) && Anchored(at, s) && !StopsMachine(at, s, t, regs)
    ensures Inv(Saved(s, regs)) && Anchored(at, Saved(s, regs)) && Live(Saved(s, regs)) == Live(s)
    ensures var r := Handle(at, Saved(s, regs), t);
      && !r.Panic? && !Exception(at, s, t, regs).Panic?
      && Exception(at, s, t, regs) == (if r.Done? then Resumed(at, r.state) else r)
  {
    hide Core, SameViews, Handle, VirtualMemoryCheck, Schedule, PagetableOk, Anchored, StopsMachine;
    SavedInv(at, s, Saved(s, regs));
    ExceptionInv(at, s, t, regs);
    var r := Handle(at, Saved(s, regs), t);
    if r.Done? {
      RunsOn(at, r.state);
    }
  }

  // ---------------------------------------------------------------- who runs next

  /** Counting on from pid comes round to every process. */
  lemma HopReaches(pid: nat, q: nat) returns (j: nat)
    requires pid < NPROC && q < NPROC
    ensures 1 <= j <= NPROC && Hop(pid, j) == q
  {
    j := if q > pid then q - pid else q + NPROC - pid;
  }

  /** The machine goes on from u with the next runnable process in turn, or idles because there is none. */
  ghost predicate PassesOn(u: KState, r: Result) {
    if exists q :: 0 <= q < NPROC && u.procs[q].state.Runnable?
    then exists d :: InTurn(u.procs, u.current, d) && r == Done(u.(current := Hop(u.current, d)), 0)
    else r == Idle(u)
  }

  lemma SchedulePassesOn(at: Layout, s: KState)
    requires Inv(s) && Anchored(at, s)
    ensures PassesOn(s, Schedule(at, s))
  {
    hide Inv, Anchored, PagetableOk, InTurn;
    ScheduleInv(at, s);
    ScheduleOrder(s.procs, s.current, NPROC);
    var r := NextRunnable(s.procs, s.current, NPROC);
    if r == -1 {
      forall q | 0 <= q < NPROC ensures !s.procs[q].state.Runnable? {
        var j := HopReaches(s.current, q);
      }
    }
  }

  /**
   * A timer interrupt or a yield passes the processor on: the process that runs next is the first
   * runnable one behind the current process, which itself comes last, and nothing else changes but
   * the registers saved.
   */
  lemma ProcessorPassesOn(h: History, s: KState, t: Trap, regs: Registers)
    requires Reached(h, s) && s.procs[s.current].state.Runnable? && t in {Timer, Yield}
    ensures
      var p := s.current;
      exists d :: InTurn(s.procs, p, d) && Exception(h.at, s, t, regs) ==
                  Done(s.(procs := s.procs[p := s.procs[p].(regs := regs)], current := Hop(p, d)), 0)
  {
    hide Reached, Inv, Anchored, Exception, Schedule;
    ReachedInv(h, s);
    TrapHandled(h.at, s, t, regs);
    var s1 := Saved(s, regs);
    SchedulePassesOn(h.at, s1);
    assert s1.procs[s1.current].state.Runnable?;
    var d :| InTurn(s1.procs, s1.current, d) && Schedule(h.at, s1) == Done(s1.(current := Hop(s1.current, d)), 0);
    assert InTurn(s.procs, s.current, d);
  }

  // ---------------------------------------------------------------- the other traps

  /** getpid: the process finds its own number in eax and runs on; nothing else changes. */
  lemma GetPidAnswers(h: History, s: KState, regs: Registers)
    requires Reached(h, s) && s.procs[s.current].state.Runnable?
    ensures Exception(h.at, s, GetPid, regs) ==
              Done(s.(procs := s.procs[s.current := s.procs[s.current].(regs := regs.(eax := s.current))]), 0)
  {
    hide Reached, Core, Anchored, Exception, Schedule;
    ReachedInv(h, s);
    TrapHandled(h.at, s, GetPid, regs);
  }

  /** A page fault in user code breaks its process and nothing else; another one runs. */
  lemma FaultBreaks(h: History, s: KState, regs: Registers)
    requires Reached(h, s) && s.procs[s.current].state.Runnable? && UserFault(regs)
    ensures PassesOn(s.(procs := s.procs[s.current := s.procs[s.current].(regs := regs, state := Broken)]),
                     Exception(h.at, s, PageFault, regs))
  {
    hide Reached, Core, Anchored, Exception, Schedule, PassesOn, SameViews;
    ReachedInv(h, s);
    TrapHandled(h.at, s, PageFault, regs);
    var s1 := Saved(s, regs);
    var u: KState := s1.(procs := s1.procs[s1.current := s1.procs[s1.current].(state := Broken)]);
    SavedInv(h.at, s, u);
    SchedulePassesOn(h.at, u);
    assert u == s.(procs := s.procs[s.current := s.procs[s.current].(regs := regs, state := Broken)]);
  }

  /** What is left of a page when p exits: its own pages are free, pages in use more than once lose a reference. */
  function WithoutOwner(x: PageInfo, p: nat): PageInfo {
    if x.owner == p then PageInfo(PO_FREE, 0)
    else if x.owner > 0 && x.refcount > 1 then PageInfo(x.owner, x.refcount - 1)
    else x
  }

  /**
   * An exit gives everything back: the process's slot is free, every page it owned is free, every other
   * process page used more than once loses one reference, the other processes map and see what they did,
   * and one of them runs unless none can.
   */
  lemma ExitGivesBack(h: History, s: KState, regs: Registers)
    requires Reached(h, s) && s.procs[s.current].state.Runnable?
    ensures !Exception(h.at, s, ExitCall, regs).Panic?
    ensures
      var r, p := Exception(h.at, s, ExitCall, regs), s.current;
      var t := r.state;
      && t.procs == s.procs[p := s.procs[p].(regs := regs, state := Free)] && Live(t) == Live(s) - {p}
      && (forall f :: 0 <= f < NPAGES ==> t.pageinfo[f] == WithoutOwner(s.pageinfo[f], p))
      && t.mem == s.mem && t.kpt == s.kpt && PassesOn(t.(current := p), r)
      && forall q, v :: q in Live(t) && 0 <= v < L1_PAGES ==>
           && Walk(t.mem, t.procs[q].pagetable, v) == Walk(s.mem, s.procs[q].pagetable, v)
           && Sees(t, q, v) == Sees(s, q, v)
  {
    hide Reached, Core, Anchored, Exception, Schedule, PassesOn, SameViews, Walk;
    ReachedInv(h, s);
    TrapHandled(h.at, s, ExitCall, regs);
    var s1 := Saved(s, regs);
    ExitAnchors(h.at, s1);
    var u := Exit(s1, s1.current);
    SchedulePassesOn(h.at, u);
    PassedOn(u, Schedule(h.at, u));
  }

  lemma PassedOn(u: KState, r: Result)
    requires PassesOn(u, r)
    ensures !r.Panic? && r.state.(current := u.current) == u
  {}

  // ---------------------------------------------------------------- memory

  /**
   * Frame f went to process p, which maps it at page v for reading and writing; other mappings stay, and so
   * does memory but for the level-2 table of p.
   */
  ghost predicate Given(s: KState, t: KState, p: nat, v: nat, f: nat)
    requires p < NPROC
  {
    && f < NPAGES && s.pageinfo[f].owner == PO_FREE && (forall g :: 0 <= g < f ==> s.pageinfo[g].owner != PO_FREE)
    && t.pageinfo == s.pageinfo[f := PageInfo(p, 1)]
    && (forall g :: 0 <= g < NPAGES && g != s.mem[s.procs[p].pagetable][0].frame ==> t.mem[g] == s.mem[g])
    && (forall q, x :: q in Live(s) && 0 <= x < L1_PAGES ==>
          Walk(t.mem, t.procs[q].pagetable, x) ==
          if q == p && x == v then Word(f, PWU) else Walk(s.mem, s.procs[q].pagetable, x))
  }

  /**
   * A page-allocation call that does not stop the machine gives its process the first free page, at the
   * address asked for, and 0 in eax; without a free page it changes nothing but eax, to -1.
   */
  lemma PageAllocGives(h: History, s: KState, regs: Registers)
    requires Reached(h, s) && s.procs[s.current].state.Runnable? && !StopsMachine(h.at, s, PageAllocation, regs)
    ensures Exception(h.at, s, PageAllocation, regs).Done?
    ensures
      var t, p := Exception(h.at, s, PageAllocation, regs).state, s.current;
      if forall f :: 0 <= f < NPAGES ==> s.pageinfo[f].owner != PO_FREE
      then t == s.(procs := s.procs[p := s.procs[p].(regs := regs.(eax := EAX_ERROR))])
      else
        && t.procs == s.procs[p := s.procs[p].(regs := regs.(eax := 0))] && t.current == p && t.kpt == s.kpt
        && exists f: nat :: Given(s, t, p, PageNumber(regs.eax), f)
  {
    hide Reached, Core, Anchored, Exception, Schedule, SameViews, Walk, PageAlloc, Given;
    ReachedInv(h, s);
    TrapHandled(h.at, s, PageAllocation, regs);
    var s1 := Saved(s, regs);
    PageAllocInv(s1);
    PageAllocKeeps(s1);
    var t := PageAlloc(s1).state;
    if FirstFree(s.pageinfo, 0, NPAGES) != -1 {
      GivenFrom(s, s1, t, regs);
    }
  }

  lemma GivenFrom(s: KState, s1: KState, t: KState, regs: Registers)
    requires Inv(s) && s1 == Saved(s, regs) && FirstFree(s.pageinfo, 0, NPAGES) != -1
    requires Allocated(s1, t, PageNumber(regs.eax), FirstFree(s.pageinfo, 0, NPAGES))
    requires t.procs == SetEax(s1, s1.current, 0).procs
    ensures Given(s, t, s.current, PageNumber(regs.eax), FirstFree(s.pageinfo, 0, NPAGES))
  {
    hide Walk, Core;
    var p := s.current;
    assert Live(s1) == Live(s);
    CoreBounds(s, Live(s), Live(s));
    forall q, x | q in Live(s) && 0 <= x < L1_PAGES
      ensures Walk(t.mem, t.procs[q].pagetable, x) ==
              if q == p && x == PageNumber(regs.eax) then Word(FirstFree(s.pageinfo, 0, NPAGES), PWU)
              else Walk(s.mem, s.procs[q].pagetable, x)
    {
      WalkIsEntry(s, q, x);
      if q != p {
        assert SameView(s1, t, q);
      }
      WalkIsEntry(t, q, x);
    }
  }

  /**
   * A store that the process's own entry permits changes one word of the page it sees there, and of no
   * other frame; a store it does not permit changes nothing.
   */
  lemma StoreWrites(h: History, s: KState, vpn: nat, i: nat, w: Word)
    requires Reached(h, s) && s.procs[s.current].state.Runnable? && vpn < L1_PAGES && i < NENTRIES
    ensures
      var t, seen := Step(h.at, s, Stored(vpn, i, w)).state, Sees(s, s.current, vpn);
      if seen.Visible? && seen.w && seen.u then
        && Sees(t, s.current, vpn) == Visible(seen.page[i := w], true, true)
        && t == s.(mem := t.mem) && forall f :: 0 <= f < NPAGES && !UserMaps(s, s.current, vpn, f) ==>
             t.mem[f] == s.mem[f]
      else t == s
  {
    hide Reached, Core, Anchored;
    ReachedInv(h, s);
    UserStoreInv(s, vpn, i, w);
    CurrentLives(s);
    var p := s.current;
    var t := UserStore(s, vpn, i, w);
    assert SameView(s, t, p);
    WalkIsEntry(s, p, vpn);
    WalkIsEntry(t, p, vpn);
    if vpn < NENTRIES {
      EntryOkAt(s, p, vpn);
    }
  }
}
