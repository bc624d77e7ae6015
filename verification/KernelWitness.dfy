/**
 * Reachable states in which the kernel's less obvious behaviour shows: a fork that finds no process
 * slot and leaves eax as it was, and a fork that fails and takes a reference from a shared page. Both
 * start from one program with a single read-only page.
 */
module KernelWitness {
  import opened Machine
  import opened Paging
  import opened KernelSpec
  import opened KernelInvariant
  import opened KernelFork
  import opened KernelMemory
  import opened KernelCounts
  import opened KernelAnchors
  import opened KernelSteps
  import opened KernelSharing
  import opened KernelBoot
  import opened KernelRuns
  import opened KernelStart

  // ---------------------------------------------------------------- boot

  /** One read-only page at PROC_START_ADDR. */
  function OnePage(): Segment { ElfSegment(PROC_PAGES * NENTRIES, [], 0, NENTRIES, false) }

  function OnePageProgram(): Program { Program([OnePage()], PROC_PAGES * PAGESIZE) }

  lemma ProgramFits()
    ensures ProgramOk(OnePageProgram()) && ProgramsOk([OnePageProgram()])
  {}

  /** Process 1 has new page tables and nothing mapped in process memory. */
  ghost predicate Empty(at: Layout, u: KState) {
    && Building(at, u, {1}, 1, {1}) && TableOk(u, 1) && u.pageinfo[PROC_PAGES] == PageInfo(PO_FREE, 0)
    && forall x :: PROC_PAGES <= x < NENTRIES ==> Entry(u, 1, x) == ABSENT
  }

  /** Process 1 has its page. */
  ghost predicate Loaded(at: Layout, u: KState) {
    && Building(at, u, {1}, 1, {1}) && TableOk(u, 1) && u.pageinfo[PROC_PAGES] == PageInfo(1, 1)
    && forall x :: PROC_PAGES <= x < NENTRIES ==> Entry(u, 1, x) == if x == PROC_PAGES then Word(x, PU) else ABSENT
  }

  lemma LoadsOnePage(at: Layout, u: KState)
    requires Empty(at, u)
    ensures var r := LoadSegments(u, 1, OnePageProgram().segments);
      r.Done? && r.ret == 0 && Loaded(at, r.state) && SameDescriptors(u, r.state)
  {
    hide Building, MapPage, CopyImage, Walk;
    var v := PROC_PAGES;
    FreeOwner(at, u);
    TakePage(at, u, {1}, 1, {1}, v, v);
    var s1 := MapPage(Grab(u, v, 1), 1, v * PAGESIZE, v * PAGESIZE, PWU).state;
    assert AllocSegment(u, 1, v, v + 1) == AllocSegment(s1, 1, v + 1, v + 1) == Done(s1, 0);
    CopyImageBuilds(at, s1, {1}, 1, {1}, OnePage());
    var s2: KState := s1.(mem := CopyImage(s1.mem, OnePage()));
    DowngradeOne(at, s2, {1}, 1, {1}, v, v + 1);
    var e := Walk(s2.mem, s2.procs[1].pagetable, v);
    var s3 := MapPage(s2, 1, v * PAGESIZE, e.frame * PAGESIZE, PU).state;
    assert Downgrade(s2, 1, v, v + 1) == Downgrade(s3, 1, v + 1, v + 1) == Done(s3, 0);
    assert LoadSegment(u, 1, OnePage()) == Done(s3, 0);
    assert OnePageProgram().segments[1..] == [];
    BuildingTable(at, s3);
  }

  lemma FreeOwner(at: Layout, u: KState)
    requires Empty(at, u)
    ensures u.pageinfo[PROC_PAGES].owner == PO_FREE && 1 < NPROC
  {}

  lemma BuildingTable(at: Layout, u: KState)
    requires Building(at, u, {1}, 1, {1})
    ensures TableOk(u, 1)
  {}

  /** What is known of process 1 once it is set up. */
  ghost predicate SetUp(s: KState) {
    && s.procs[1].state.Runnable? && TableOk(s, 1) && s.pageinfo[PROC_PAGES] == PageInfo(1, 1)
    && Entry(s, 1, PROC_PAGES) == Word(PROC_PAGES, PU)
    && (forall x :: PROC_PAGES <= x < VIRT_PAGES ==>
          (Entry(s, 1, x).perm.p && Entry(s, 1, x).perm.w <==> x == VIRT_PAGES - 1))
  }

  /** The stack page, and process 1 is ready. */
  lemma GetsStack(at: Layout, s3: KState)
    requires Loaded(at, s3) && FreeFrames(s3.pageinfo, PROC_PAGES) > 0
    ensures var s4: KState := s3.(procs := s3.procs[1 := s3.procs[1].(regs :=
                                s3.procs[1].regs.(eip := OnePageProgram().entry, esp := VIRT_PAGES * PAGESIZE))]);
            var (s5, f) := AllocFree(s4, NPAGES, 1);
            && f != -1
            && var r := MapPage(s5, 1, (VIRT_PAGES - 1) * PAGESIZE, f * PAGESIZE, PWU);
               && r.Done?
               && SetUp(r.state.(procs := r.state.procs[1 := r.state.procs[1].(state := Runnable)]))
  {
    hide MapPage, Building, FreeFrames;
    var s4: KState := s3.(procs := s3.procs[1 := s3.procs[1].(regs :=
                        s3.procs[1].regs.(eip := OnePageProgram().entry, esp := VIRT_PAGES * PAGESIZE))]);
    BuildingKeeps(at, s3, s4, {1}, 1, {1});
    LowFree(s3.pageinfo, PROC_PAGES, NPAGES);
    SomeFree(at, s4);
    var (s5, f) := AllocFree(s4, NPAGES, 1);
    AllocFreeIs(at, s4, {1}, 1, {1}, s5, f);
    BuildingTable(at, s4);
    TakePage(at, s4, {1}, 1, {1}, VIRT_PAGES - 1, f);
    var s6 := MapPage(s5, 1, (VIRT_PAGES - 1) * PAGESIZE, f * PAGESIZE, PWU).state;
    IsReady(s3, s4, s6, f);
  }

  lemma IsReady(s3: KState, s4: KState, s6: KState, f: nat)
    requires TableOk(s3, 1) && TableOk(s4, 1) && TableOk(s6, 1) && s4.pageinfo == s3.pageinfo && s4.mem == s3.mem
    requires s4.procs[1].pagetable == s3.procs[1].pagetable
    requires s3.pageinfo[PROC_PAGES] == PageInfo(1, 1)
    requires forall x :: PROC_PAGES <= x < NENTRIES ==>
      Entry(s3, 1, x) == if x == PROC_PAGES then Word(x, PU) else ABSENT
    requires f < NPAGES && s4.pageinfo[f].owner == PO_FREE && s6.pageinfo == s4.pageinfo[f := PageInfo(1, 1)]
    requires forall x :: 0 <= x < NENTRIES ==>
      Entry(s6, 1, x) == if x == VIRT_PAGES - 1 then Word(f, PWU) else Entry(s4, 1, x)
    ensures SetUp(s6.(procs := s6.procs[1 := s6.procs[1].(state := Runnable)]))
  {
    var t: KState := s6.(procs := s6.procs[1 := s6.procs[1].(state := Runnable)]);
    assert TableOk(t, 1);
    forall x | PROC_PAGES <= x < NENTRIES
      ensures Entry(t, 1, x) == Entry(s6, 1, x) && Entry(s4, 1, x) == Entry(s3, 1, x)
    {}
  }

  lemma SomeFree(at: Layout, s: KState)
    requires Building(at, s, {1}, 1, {1}) && FreeFrames(s.pageinfo, NPAGES) > 0
    ensures AllocFree(s, NPAGES, 1).1 != -1
  {
    AllocCounts(s, {1}, {1}, NPAGES, 1, NPAGES);
  }

  /** process_setup of the program at boot, if the kernel ends below process memory. */
  lemma SetsUpOne(at: Layout, ram: seq<Page>)
    requires |ram| == NPAGES && at.kend <= PROC_PAGES
    ensures var r := ProcessSetup(InitialState(at, ram), 1, OnePageProgram()); r.Done? && r.ret == 0 && SetUp(r.state)
  {
    hide InitialState, Inv, Sharing, Anchored, Building, LoadSegments, CopyPagetable, MapPage, AllocFree, FreeFrames;
    var s := InitialState(at, ram);
    InitialInv(at, ram);
    InitialFrames(at, ram);
    var s1: KState := s.(procs := s.procs[1 := s.procs[1].(regs := INITIAL_REGISTERS)]);
    SetupStart(s, 1, s1);
    var (s2, pt) := CopyPagetable(s1, 1);
    FirstTables(at, ram, s1, s2, pt);
    var u := SetPagetable(s2, 1, pt);
    LoadsOnePage(at, u);
    LoadSegmentsLow(u, 1, OnePageProgram().segments);
    var s3 := LoadSegments(u, 1, OnePageProgram().segments).state;
    FreeSame(u.pageinfo, s3.pageinfo, PROC_PAGES);
    GetsStack(at, s3);
  }

  lemma FirstTables(at: Layout, ram: seq<Page>, s1: KState, s2: KState, pt: int)
    requires |ram| == NPAGES && at.kend <= PROC_PAGES
    requires var s := InitialState(at, ram); s1 == s.(procs := s.procs[1 := s.procs[1].(regs := INITIAL_REGISTERS)])
    requires (s2, pt) == CopyPagetable(s1, 1) && pt != -1
    requires s2.pageinfo[PROC_PAGES] == InitialState(at, ram).pageinfo[PROC_PAGES]
    ensures 0 <= pt < NPAGES && Empty(at, SetPagetable(s2, 1, pt)) && SetPagetable(s2, 1, pt).pageinfo == s2.pageinfo
  {
    hide Core, SameViews, Sharing, CopyPagetable, Building;
    var s := InitialState(at, ram);
    InitialInv(at, ram);
    LiveGrows(s, {}, {}, 1);
    ProcsKeep(s, {1}, {}, s1);
    NewTables(s1, {1}, {}, 1, s2, pt);
    SetupTables(at, s, 1, {}, s1, s2, pt);
    assert Live(s) + {1} == {1} && {} + {1} == {1};
    var u := SetPagetable(s2, 1, pt);
    BuildingTable(at, u);
  }

  /** A history without spinning: every step so far led to a running process. */
  ghost predicate Running(h: History, path: seq<KState>) {
    && Execution(h, path) && path[|h.events|].procs[path[|h.events|].current].state.Runnable?
    && forall k: nat {:trigger StepDone(h, path, k)} :: k < |h.events| ==> StepDone(h, path, k)
  }

  ghost predicate StepDone(h: History, path: seq<KState>, k: nat)
    requires h.Ok() && k < |h.events| && |path| == |h.events| + 1
  {
    Step(h.at, path[k], h.events[k]).Done?
  }

  ghost function Last(h: History, path: seq<KState>): KState
    requires |path| == |h.events| + 1
  {
    path[|h.events|]
  }

  function Then(h: History, e: Event): History { h.(events := h.events + [e]) }

  /** The history goes on with one more event. */
  lemma GoesOnWith(h: History, path: seq<KState>, e: Event, t: KState)
    requires Running(h, path) && e.Possible() && t.procs[t.current].state.Runnable?
    requires Step(h.at, Last(h, path), e).Done? && Step(h.at, Last(h, path), e).state == t
    ensures Running(Then(h, e), path + [t])
  {
    hide Step, Boots;
    var h2, more := Then(h, e), path + [t];
    var boots :| Boots(h, boots, path[0]);
    BootsAlike(h, e, boots, path[0]);
    assert Boots(h2, boots, more[0]);
    forall k: nat | k < |h2.events| ensures Advances(h2, more, k) && StepDone(h2, more, k) {
      if k < |h.events| {
        assert Advances(h, path, k) && StepDone(h, path, k);
      }
    }
  }

  lemma BootsAlike(h: History, e: Event, boots: seq<KState>, s: KState)
    requires h.Ok() && e.Possible() && Boots(h, boots, s)
    ensures Then(h, e).Ok() && Boots(Then(h, e), boots, s)
  {
    hide ProcessSetup, InitialState;
    var h2 := Then(h, e);
    forall k: nat | k < |h2.programs| ensures SetsUp(h2, boots, k) {
      assert SetsUp(h, boots, k);
    }
  }

  lemma RunningGood(h: History, path: seq<KState>)
    requires Running(h, path)
    ensures Reached(h, Last(h, path)) && Good(Last(h, path)) && Anchored(h.at, Last(h, path))
  {
    hide Inv, Anchored, Boots, Advances, StepDone;
    ReachedInv(h, Last(h, path));
  }

  /** The program boots: process 1 runs, in the only process there is. */
  lemma OneBoots(at: Layout, ram: seq<Page>) returns (h: History, path: seq<KState>)
    requires |ram| == NPAGES && at.kend <= PROC_PAGES
    ensures Running(h, path) && h == History(at, ram, [OnePageProgram()], [])
    ensures var s := Last(h, path);
      && s.current == 1 && SetUp(s) && |Live(s)| == 1 && FreeFrames(s.pageinfo, PROC_PAGES) >= 60
  {
    hide ProcessSetup, InitialState, Inv, Anchored, Sharing, FreeFrames;
    ProgramFits();
    h := History(at, ram, [OnePageProgram()], []);
    SetsUpOne(at, ram);
    var s := ProcessSetup(InitialState(at, ram), 1, OnePageProgram()).state;
    var boots := [InitialState(at, ram), s];
    assert SetsUp(h, boots, 0);
    BootsInv(h, boots, 1);
    SetUpFrames(h, boots, 1);
    assert UpTo(2) == {1};
    var first: KState := s.(current := 1);
    path := [first];
    assert Boots(h, boots, path[0]);
    SetUpAlike(s, first);
  }

  lemma SetUpAlike(s: KState, t: KState)
    requires SetUp(s) && t == s.(current := 1)
    ensures SetUp(t) && Live(t) == Live(s)
  {
    assert TableOk(t, 1);
    forall x | 0 <= x < NENTRIES ensures Entry(t, 1, x) == Entry(s, 1, x) {}
  }

  // ---------------------------------------------------------------- a fork

  /** From s to t, its parent and its child: process 1 forked a child, with what that took. */
  ghost predicate ForksTo(s: KState, t: KState, child: nat) {
    && s.current == t.current == 1 && SameEntries(s, t) && child in Live(t) && Live(t) == Live(s) + {child}
         && child !in Live(s)
    && t.procs[1].state.Runnable?
    && FreeFrames(t.pageinfo, PROC_PAGES) + 2 + Copies(s, PROC_PAGES, VIRT_PAGES) >= FreeFrames(s.pageinfo, PROC_PAGES)
    && InheritsFrom(s, t, child, PROC_PAGES)
    && forall f :: 0 <= f < NPAGES && s.pageinfo[f].owner > 0 && SharesAt(s, f) ==>
         t.pageinfo[f] == PageInfo(s.pageinfo[f].owner, s.pageinfo[f].refcount + 1)
  }

  lemma ForkStep(h: History, path: seq<KState>, regs: Registers) returns (more: seq<KState>, child: nat)
    requires Running(h, path)
    requires var s := Last(h, path); s.current == 1 && FreeSlot(s.procs, 1) != -1 && TableOk(s, 1) && RoomForChild(s)
    ensures var h2 := Then(h, Trapped(ForkCall, regs));
      && Running(h2, more) && ForksTo(Last(h, path), Last(h2, more), child)
  {
    hide Core, SameViews, Exception, Fork, Firm, InheritsFrom, RoomForChild, FreeFrames, Copies, Live;
    hide TableOk, LosesReference;
    hide SharesAt, ForkStops, Boots, Advances, StepDone;
    var s := Last(h, path);
    RunningGood(h, path);
    ForkTrap(h.at, s, regs);
    ForkBuildsExactly(h, s, regs);
    var t := Exception(h.at, s, ForkCall, regs).state;
    child := FreeSlot(s.procs, 1);
    SavedEntries(s, regs);
    AfterFork(s, Saved(s, regs), t, child);
    more := path + [t];
    GoesOnWith(h, path, Trapped(ForkCall, regs), t);
  }

  lemma AfterFork(s: KState, s1: KState, t: KState, child: nat)
    requires Inv(s1) && s.current == 1 && s1.current == 1 && 1 in Live(s1) && SameEntries(s, s1)
    requires s1.pageinfo == s.pageinfo
    requires s1.mem == s.mem && Live(s1) == Live(s) && s1.procs[1].state.Runnable?
    requires Fork(s1).Done? && Fork(s1).ret != -1 && t == Fork(s1).state && Forked(s1, t, child)
    ensures ForksTo(s, t, child)
  {
    hide Core, Fork, FreeFrames, Copies, TableOk, Live, Inherits, OwnCopies;
    ForkCounts(s1);
    CopiesSame(s, s1, PROC_PAGES, VIRT_PAGES);
    LowTaken(s.pageinfo, t.pageinfo, PROC_PAGES, NPAGES) by { OnlyTaken(s1, t, child); }
    ViewOf(s1, t, Live(s1), 1);
    SameByView(s1, t);
    SameEntriesTrans(s, s1, t);
    InheritsAlike(s, s1, t, child);
    forall f | 0 <= f < NPAGES ensures SharesAt(s1, f) == SharesAt(s, f) {}
  }

  lemma OnlyTaken(s: KState, t: KState, child: nat)
    requires Forked(s, t, child)
    ensures forall f :: 0 <= f < NPAGES && t.pageinfo[f].owner == PO_FREE ==> s.pageinfo[f].owner == PO_FREE
  {}

  lemma SameByView(s: KState, t: KState)
    requires s.current == t.current == 1 && SameView(s, t, 1)
    ensures SameEntries(s, t)
  {}

  lemma SameEntriesTrans(s: KState, t: KState, u: KState)
    requires SameEntries(s, t) && SameEntries(t, u)
    ensures SameEntries(s, u)
  {}

  lemma InheritsAlike(s: KState, s1: KState, t: KState, child: nat)
    requires SameEntries(s, s1) && s1.pageinfo == s.pageinfo && s1.mem == s.mem
    requires InheritsFrom(s1, t, child, PROC_PAGES)
    ensures InheritsFrom(s, t, child, PROC_PAGES)
  {
    hide TableOk;
    forall x | PROC_PAGES <= x < VIRT_PAGES ensures Inherits(s, t, s.current, child, x) {
      assert Inherits(s1, t, s1.current, child, x);
    }
    forall x, y | PROC_PAGES <= x < y < VIRT_PAGES ensures OwnCopies(s, t, child, x, y) {
      assert OwnCopies(s1, t, child, x, y);
    }
  }

  // ---------------------------------------------------------------- all slots taken

  lemma SlotsLeft(s: KState)
    requires Inv(s)
    ensures |Live(s)| <= 15 && (FreeSlot(s.procs, 1) != -1 ==> |Live(s)| <= 14)
  {
    hide Inv, Live, UpTo, FreeSlot;
    LiveBelow(s);
    UpToSize(NPROC);
    SubsetSize(Live(s), UpTo(NPROC));
    var slot := FreeSlot(s.procs, 1);
    if slot != -1 {
      SubsetSize(Live(s), UpTo(NPROC) - {slot});
    }
  }

  lemma LiveBelow(s: KState)
    ensures Live(s) <= UpTo(NPROC)
    ensures FreeSlot(s.procs, 1) != -1 ==> FreeSlot(s.procs, 1) in UpTo(NPROC) - Live(s)
  {
    hide UpTo, FreeSlot;
  }

  /** Room for all the children that process 1 can still have. */
  ghost predicate Roomy(s: KState) {
    && s.current == 1 && TableOk(s, 1) && Copies(s, PROC_PAGES, VIRT_PAGES) == 1
    && FreeFrames(s.pageinfo, PROC_PAGES) >= 3 * (15 - |Live(s)|)
  }

  lemma RoomyFork(s: KState)
    requires Inv(s) && Roomy(s) && FreeSlot(s.procs, 1) != -1
    ensures RoomForChild(s) && |Live(s)| <= 14
  {
    hide Inv, Live, FreeFrames, Copies, TableOk;
    SlotsLeft(s);
    LowFree(s.pageinfo, PROC_PAGES, NPAGES);
  }

  lemma RoomyStays(s: KState, t: KState, child: nat)
    requires Inv(s) && Roomy(s) && ForksTo(s, t, child)
    ensures Roomy(t) && |Live(t)| == |Live(s)| + 1
  {
    hide Inv, FreeFrames, Copies, Live, InheritsFrom, SharesAt;
    CopiesSame(s, t, PROC_PAGES, VIRT_PAGES);
  }

  /** Process 1 forks until there is no slot left. */
  lemma {:induction false} ForkAll(h: History, path: seq<KState>, regs: Registers)
    returns (h2: History, more: seq<KState>)
    requires Running(h, path) && Roomy(Last(h, path))
    ensures Running(h2, more) && h2.at == h.at && FreeSlot(Last(h2, more).procs, 1) == -1
    decreases 15 - |Live(Last(h, path))|
  {
    hide Inv, Live, Anchored, Roomy, ForksTo, RoomForChild, Boots, Advances, StepDone;
    var s := Last(h, path);
    RunningGood(h, path);
    SlotsLeft(s);
    if FreeSlot(s.procs, 1) == -1 {
      return h, path;
    }
    RoomyFork(s);
    RoomyTable(s);
    var path2, child := ForkStep(h, path, regs);
    var h1 := Then(h, Trapped(ForkCall, regs));
    RoomyStays(s, Last(h1, path2), child);
    h2, more := ForkAll(h1, path2, regs);
  }

  lemma RoomyTable(s: KState)
    requires Roomy(s)
    ensures s.current == 1 && TableOk(s, 1)
  {}

  lemma {:induction false} OneCopy(s: KState, v: nat)
    requires s.current == 1 && SetUp(s) && PROC_PAGES <= v <= VIRT_PAGES
    ensures Copies(s, v, VIRT_PAGES) == if v < VIRT_PAGES then 1 else 0
    decreases VIRT_PAGES - v
  {
    hide TableOk;
    if v < VIRT_PAGES {
      OneCopy(s, v + 1);
      assert CopiesAt(s, v) <==> v == VIRT_PAGES - 1;
    }
  }

  /**
   * There is a reachable state in which no process slot is free: fork returns -1 to the kernel there
   * and leaves the caller's registers, eax with them, as they were.
   */
  lemma SlotsRunOut(at: Layout, ram: seq<Page>, regs: Registers) returns (h: History, s: KState)
    requires |ram| == NPAGES && at.kend <= PROC_PAGES
    ensures h.at == at && Reached(h, s) && s.procs[s.current].state.Runnable?
    ensures forall i :: 1 <= i < NPROC ==> !s.procs[i].state.Free?
    ensures var r := Exception(at, s, ForkCall, regs);
      && r.Done? && r.state.current == s.current && r.state.procs[s.current].regs == regs
  {
    hide Inv, Live, Anchored, TableOk, FreeFrames, Copies, Exception, Fork, Boots, Advances, StepDone;
    var h0, path0 := OneBoots(at, ram);
    OneCopy(Last(h0, path0), PROC_PAGES);
    var path;
    h, path := ForkAll(h0, path0, regs);
    s := Last(h, path);
    RunningGood(h, path);
    ForkTrap(at, s, regs);
  }

  // ---------------------------------------------------------------- memory used up

  /** An address in process memory that is not the shared page's. */
  const HEAP := (PROC_PAGES + 1) * PAGESIZE

  function AskHeap(regs: Registers): Registers { regs.(eax := HEAP) }

  /** Process 1 and another one map the page at PROC_START_ADDR read-only, and that is counted. */
  ghost predicate SharedByTwo(s: KState, c: nat) {
    && s.current == 1 && c in Live(s) && 1 in Live(s) && c != 1 && c < NPROC && TableOk(s, 1) && TableOk(s, c)
    && s.pageinfo[PROC_PAGES] == PageInfo(1, 2) && FreeSlot(s.procs, 1) != -1
    && Entry(s, 1, PROC_PAGES) == Entry(s, c, PROC_PAGES) == Word(PROC_PAGES, PU)
  }

  /** A page-allocation trap that finds a page returns to the process. */
  lemma AllocReturns(at: Layout, s: KState, regs: Registers)
    requires Good(s) && Anchored(at, s) && FirstFree(s.pageinfo, 0, NPAGES) != -1
    ensures var s1, r := Saved(s, AskHeap(regs)), Exception(at, s, PageAllocation, AskHeap(regs));
      && Good(s1) && Live(s1) == Live(s) && SameViews(s, s1, Live(s)) && r.Done? && Good(r.state)
           && Live(r.state) == Live(s)
      && Allocated(s1, r.state, PROC_PAGES + 1, FirstFree(s.pageinfo, 0, NPAGES))
      && r.state.procs == SetEax(s1, s1.current, 0).procs && r.state.current == s.current
  {
    hide Core, SameViews, VirtualMemoryCheck, PagetableOk, RunProcess, Firm, AnchoredAt, PageAlloc, Schedule;
    hide Live, Allocated;
    var s1 := Saved(s, AskHeap(regs));
    DescriptorsKeep(s, s1);
    assert PageOffset(HEAP) == 0 && PageNumber(HEAP) == PROC_PAGES + 1;
    if Pinned(at, PROC_PAGES + 1) {
      PinnedLow(at, PROC_PAGES + 1);
    }
    ExceptionInv(at, s, PageAllocation, AskHeap(regs));
    PageAllocInv(s1);
    RunsOn(at, PageAlloc(s1).state);
  }

  lemma SharedStays(s: KState, s1: KState, t: KState, c: nat, f: nat)
    requires Inv(s) && SharedByTwo(s, c) && SameViews(s, s1, Live(s)) && Live(s1) == Live(s)
    requires s1.pageinfo == s.pageinfo
    requires s1.current == t.current == 1 && Live(t) == Live(s) && Allocated(s1, t, PROC_PAGES + 1, f)
    requires FreeSlot(t.procs, 1) == FreeSlot(s.procs, 1)
    ensures SharedByTwo(t, c) && FreeFrames(s.pageinfo, NPAGES) == FreeFrames(t.pageinfo, NPAGES) + 1
  {
    hide Core, Live, FreeFrames;
    FreeUpdate(s.pageinfo, f, PageInfo(1, 1), NPAGES);
    assert SameView(s, s1, 1) && SameView(s, s1, c) && c in Live(s1) - {1} && SameView(s1, t, c);
  }

  /** Process 1 asks for pages until there are none. */
  lemma {:induction false} UseUp(h: History, path: seq<KState>, regs: Registers, c: nat)
    returns (h2: History, more: seq<KState>)
    requires Running(h, path) && SharedByTwo(Last(h, path), c)
    ensures Running(h2, more) && h2.at == h.at && SharedByTwo(Last(h2, more), c)
    ensures FreeFrames(Last(h2, more).pageinfo, NPAGES) == 0
    decreases FreeFrames(Last(h, path).pageinfo, NPAGES)
  {
    hide Core, Live, Anchored, SameViews, Allocated, Exception, FreeFrames, TableOk, Boots, Advances, StepDone;
    var s := Last(h, path);
    RunningGood(h, path);
    NoneFree(s.pageinfo, NPAGES);
    if FreeFrames(s.pageinfo, NPAGES) == 0 {
      return h, path;
    }
    var x: nat :| x < NPAGES && s.pageinfo[x].owner == PO_FREE;
    FirstFreeFinds(s.pageinfo, 0, x);
    AllocReturns(h.at, s, regs);
    var s1, t := Saved(s, AskHeap(regs)), Exception(h.at, s, PageAllocation, AskHeap(regs)).state;
    SameSlot(s.procs, t.procs, 1);
    SharedStays(s, s1, t, c, FirstFree(s.pageinfo, 0, NPAGES));
    var e := Trapped(PageAllocation, AskHeap(regs));
    GoesOnWith(h, path, e, t);
    h2, more := UseUp(Then(h, e), path + [t], regs, c);
  }

  /** After its first fork, process 1 and the child share the page. */
  lemma FirstFork(s: KState, t: KState, child: nat)
    requires Inv(s) && Inv(t) && SetUp(s) && |Live(s)| == 1 && ForksTo(s, t, child)
    ensures SharedByTwo(t, child)
  {
    hide Core, FreeFrames, Copies;
    var p := PROC_PAGES;
    assert Inherits(s, t, 1, child, p) && SharesAt(s, p) && Shareable(s.pageinfo, p);
    assert child in Live(t) && 1 in Live(t) && child != 1;
    SlotsLeft(t);
    if FreeSlot(t.procs, 1) == -1 {
      AllTaken(t);
    }
  }

  lemma AllTaken(s: KState)
    requires Inv(s) && FreeSlot(s.procs, 1) == -1
    ensures |Live(s)| == 15
  {
    UpToSize(NPROC);
    assert Live(s) == UpTo(NPROC);
  }

  /**
   * There is a reachable state in which a fork fails and takes a reference that no process gives up:
   * afterwards two processes map a page that is counted once.
   */
  lemma ForkLosesCount(at: Layout, ram: seq<Page>, regs: Registers) returns (h: History, s: KState, c: nat)
    requires |ram| == NPAGES && at.kend <= PROC_PAGES
    ensures h.at == at && Reached(h, s) && s.procs[s.current].state.Runnable?
    ensures s.pageinfo[PROC_PAGES] == PageInfo(1, 2)
    ensures var r := Exception(at, s, ForkCall, regs);
      && r.Done? && r.state.pageinfo[PROC_PAGES] == PageInfo(1, 1) && c < NPROC && c != 1
      && UserMaps(r.state, 1, PROC_PAGES, PROC_PAGES) && UserMaps(r.state, c, PROC_PAGES, PROC_PAGES)
  {
    hide Core, Live, Anchored, Exception, FreeFrames, Copies, TableOk, Boots, Advances, StepDone, ForksTo;
    hide LosesReference;
    var h0, path0 := OneBoots(at, ram);
    var s0 := Last(h0, path0);
    RunningGood(h0, path0);
    OneCopy(s0, PROC_PAGES);
    OneSlot(s0);
    var path1;
    path1, c := ForkStep(h0, path0, regs);
    var h1 := Then(h0, Trapped(ForkCall, regs));
    RunningGood(h1, path1);
    FirstFork(s0, Last(h1, path1), c);
    var path;
    h, path := UseUp(h1, path1, regs, c);
    s := Last(h, path);
    RunningGood(h, path);
    LastFork(h, s, regs, c);
  }

  lemma OneSlot(s: KState)
    requires Inv(s) && SetUp(s) && s.current == 1 && |Live(s)| == 1 && FreeFrames(s.pageinfo, PROC_PAGES) >= 60
    requires Copies(s, PROC_PAGES, VIRT_PAGES) == 1
    ensures FreeSlot(s.procs, 1) != -1 && RoomForChild(s)
  {
    hide Core, FreeFrames, Copies;
    LowFree(s.pageinfo, PROC_PAGES, NPAGES);
    if FreeSlot(s.procs, 1) == -1 {
      AllTaken(s);
    }
  }

  /** The fork that fails. */
  lemma LastFork(h: History, s: KState, regs: Registers, c: nat)
    requires Reached(h, s) && Good(s) && SharedByTwo(s, c) && FreeFrames(s.pageinfo, NPAGES) == 0
    ensures var r := Exception(h.at, s, ForkCall, regs);
      && r.Done? && r.state.pageinfo[PROC_PAGES] == PageInfo(1, 1)
      && UserMaps(r.state, 1, PROC_PAGES, PROC_PAGES) && UserMaps(r.state, c, PROC_PAGES, PROC_PAGES)
  {
    hide Core, Live, Reached, Exception, FreeFrames, TableOk, Walk;
    LowFree(s.pageinfo, PROC_PAGES, NPAGES);
    ForkBuildsExactly(h, s, regs);
    FailedForkLosesCounts(h, s, regs);
    FailedForkRollsBack(h, s, regs, 1, PROC_PAGES);
    FailedForkRollsBack(h, s, regs, c, PROC_PAGES);
    WalkIsEntry(s, 1, PROC_PAGES);
    WalkIsEntry(s, c, PROC_PAGES);
  }
}
