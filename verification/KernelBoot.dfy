/**
 * Booting: a successful process_setup of every program leaves a state in which the
 * invariant and the sharing discipline hold (pset6/kernel.c:83-113, 182-201, 460-475;
 * pset6/k-loader.c:45-99).
 */
module KernelBoot {
  import opened Machine
  import opened Paging
  import opened KernelSpec
  import opened KernelInvariant
  import opened KernelFork
  import opened KernelAnchors
  import opened KernelSteps
  import opened KernelSharing

  /** Process pid is being loaded: its tables are complete, sharing holds so far, and the kernel is mapped. */
  ghost predicate Building(at: Layout, s: KState, live: set<nat>, pid: nat, loaded: set<nat>) {
    Core(s, live, live) && pid in live && pid in loaded && Sharing(s, live, live, loaded) && Firm(at, s, live)
  }

  /** What changes while a program is loaded: nothing in the descriptors but pid's own. */
  ghost predicate SameDescriptors(s: KState, t: KState) {
    t.procs == s.procs && t.current == s.current && t.kpt == s.kpt
  }

  /** Take a free page for pid and map it, fresh and writable. */
  lemma TakePage(at: Layout, s: KState, live: set<nat>, pid: nat, loaded: set<nat>, v: nat, f: nat)
    requires Building(at, s, live, pid, loaded) && PROC_PAGES <= v < NENTRIES && f < NPAGES
    requires s.pageinfo[f].owner == PO_FREE
    requires pid < NPROC
    ensures var r := MapPage(Grab(s, f, pid), pid, v * PAGESIZE, f * PAGESIZE, PWU);
            && r.Done? && Building(at, r.state, live, pid, loaded) && SameDescriptors(s, r.state)
            && r.state.pageinfo == s.pageinfo[f := PageInfo(pid, 1)]
            && TableOk(s, pid) && TableOk(r.state, pid)
            && forall x :: 0 <= x < NENTRIES ==>
                 Entry(r.state, pid, x) == if x == v then Word(f, PWU) else Entry(s, pid, x)
  {
    hide Core, SameViews, Sharing, Unmapped, OwnersKept, Firm;
    var s1 := Grab(s, f, pid);
    CoreBounds(s, live, live);
    GrabKeeps(s, live, live, f, pid, s.mem[f]);
    assert s.mem[f := s.mem[f]] == s.mem;
    ViewOf(s, s1, live, pid);
    FreeUnmapped(s, live, live, loaded, f);
    NotTables(s, live, live, f);
    MapOne(s1, pid, v, f, PWU);
    TakeWordOk(s, s1, live, pid, v, f);
    PutKeeps(s1, live, live, pid, v, Word(f, PWU));
    var t := MapPage(s1, pid, v * PAGESIZE, f * PAGESIZE, PWU).state;
    SubsetViews(s, s1, live, live - {pid});
    SameViewsTrans(s, s1, t, live - {pid});
    assert OwnersKept(s, t, loaded) by { TakeOwners(s, t, live, loaded, f, pid); }
    SharingFresh(s, t, live, live, loaded, pid, v, f);
    FirmHigh(at, s, t, live, pid, v);
  }

  /** Mappings in process memory do not concern the pinned pages. */
  lemma FirmHigh(at: Layout, s: KState, t: KState, live: set<nat>, p: nat, v: nat)
    requires Firm(at, s, live) && p in live && SameViews(s, t, live - {p}) && t.kpt == s.kpt
    requires PROC_PAGES <= v < NENTRIES
    requires p < NPROC && TableOk(s, p) && TableOk(t, p)
    requires forall x :: 0 <= x < NENTRIES && x != v ==> Entry(t, p, x) == Entry(s, p, x)
    requires forall f :: 0 <= f < NPAGES && s.pageinfo[f].owner == PO_KERNEL ==> t.pageinfo[f].owner == PO_KERNEL
    ensures Firm(at, t, live)
  {
    FirmOne(at, s, t, live, p, v);
    if Pinned(at, v) {
      PinnedLow(at, v);
    }
  }

  lemma TakeWordOk(s: KState, s1: KState, live: set<nat>, pid: nat, v: nat, f: nat)
    requires Core(s, live, live) && pid in live && pid < NPROC && f < NPAGES && s.pageinfo[f].owner == PO_FREE
    requires s1 == Grab(s, f, pid) && f != s.procs[pid].pagetable && f != Level2(s, pid)
    ensures WordOk(s1, pid, v, Word(f, PWU))
  {}

  lemma TakeOwners(s: KState, t: KState, live: set<nat>, loaded: set<nat>, f: nat, pid: nat)
    requires Core(s, live, live) && Sharing(s, live, live, loaded) && f < NPAGES && s.pageinfo[f].owner == PO_FREE
    requires t.pageinfo == s.pageinfo[f := PageInfo(pid, 1)]
    ensures OwnersKept(s, t, loaded)
  {}

  /** Pages [v, end) of process pid are its own and mapped, writable, at their own addresses. */
  ghost predicate Identity(s: KState, pid: nat, v: nat, end: nat) {
    && pid < NPROC && TableOk(s, pid) && end <= NPAGES
    && forall x :: v <= x < end ==> s.pageinfo[x].owner == pid && Entry(s, pid, x) == Word(x, PWU)
  }

  /** Pages [v, end) went to process pid; everything else is as it was. */
  ghost predicate Took(s: KState, t: KState, pid: nat, v: nat, end: nat) {
    && pid < NPROC && TableOk(s, pid) && Identity(t, pid, v, end) && SameDescriptors(s, t)
    && (forall x :: 0 <= x < NENTRIES && !(v <= x < end) ==> Entry(t, pid, x) == Entry(s, pid, x))
    && (forall x :: 0 <= x < NPAGES && !(v <= x < end) ==> t.pageinfo[x] == s.pageinfo[x])
  }

  lemma TookMore(s: KState, u: KState, t: KState, pid: nat, v: nat, end: nat)
    requires pid < NPROC && TableOk(s, pid) && TableOk(u, pid) && SameDescriptors(s, u) && v < NPAGES && v < end
    requires u.pageinfo == s.pageinfo[v := PageInfo(pid, 1)]
    requires forall x :: 0 <= x < NENTRIES ==> Entry(u, pid, x) == if x == v then Word(v, PWU) else Entry(s, pid, x)
    requires Took(u, t, pid, v + 1, end)
    ensures Took(s, t, pid, v, end)
  {}

  lemma ZeroIsFree(at: Layout, s: KState, live: set<nat>, pid: nat, loaded: set<nat>, f: nat)
    requires Building(at, s, live, pid, loaded) && f < NPAGES && s.pageinfo[f].refcount == 0
    ensures s.pageinfo[f].owner == PO_FREE
  {
    assert PageOk(s.pageinfo[f], live);
  }

  lemma {:induction false} AllocSegmentBuilds(at: Layout, s: KState, live: set<nat>, pid: nat, loaded: set<nat>,
      v: nat, end: nat)
    requires Building(at, s, live, pid, loaded) && pid < NPROC && PROC_PAGES <= v <= end <= NPAGES
    ensures AllocSegment(s, pid, v, end).Done?
    ensures AllocSegment(s, pid, v, end).ret == 0 ==>
              var t := AllocSegment(s, pid, v, end).state;
              Building(at, t, live, pid, loaded) && Took(s, t, pid, v, end)
    decreases end - v
  {
    if v == end {
      assert TableOk(s, pid);
    } else if s.pageinfo[v].refcount == 0 {
      hide Building, Took, MapPage;
      ZeroIsFree(at, s, live, pid, loaded, v);
      TakePage(at, s, live, pid, loaded, v, v);
      var u := MapPage(Grab(s, v, pid), pid, v * PAGESIZE, v * PAGESIZE, PWU).state;
      AllocSegmentBuilds(at, u, live, pid, loaded, v + 1, end);
      var r := AllocSegment(u, pid, v + 1, end);
      if r.ret == 0 {
        TookMore(s, u, r.state, pid, v, end);
      }
    }
  }

  /** Filling the segment's pages touches no page table. */
  lemma CopyImageBuilds(at: Layout, s: KState, live: set<nat>, pid: nat, loaded: set<nat>, seg: Segment)
    requires Building(at, s, live, pid, loaded) && pid < NPROC && PROC_PAGES <= seg.First()
    requires Identity(s, pid, seg.First(), seg.End())
    ensures var t := s.(mem := CopyImage(s.mem, seg));
            && Building(at, t, live, pid, loaded) && Identity(t, pid, seg.First(), seg.End()) && TableOk(s, pid)
            && forall x :: 0 <= x < NENTRIES ==> Entry(t, pid, x) == Entry(s, pid, x)
  {
    var t := s.(mem := CopyImage(s.mem, seg));
    forall p | p in live
      ensures t.mem[s.procs[p].pagetable] == s.mem[s.procs[p].pagetable] && t.mem[Level2(s, p)] == s.mem[Level2(s, p)]
    {
      assert TableOk(s, p);
    }
    FillKeeps(s, live, live, t.mem);
    SharingSame(s, t, live, live, live, live, loaded);
    FirmSame(at, s, t, live, live);
    assert SameView(s, t, pid);
  }

  /** Process p gives up write access to a page of its own mapped at its own address. */
  lemma SharingDowngrade(s: KState, t: KState, live: set<nat>, loaded: set<nat>, p: nat, v: nat)
    requires Core(s, live, live) && Core(t, live, live) && Sharing(s, live, live, loaded)
    requires p in live && p in loaded && PROC_PAGES <= v < NPAGES && s.pageinfo[v].owner == p
    requires t.pageinfo == s.pageinfo
    requires SameViews(s, t, live - {p}) && Entry(s, p, v) == Word(v, PWU)
    requires forall x :: 0 <= x < NENTRIES ==> Entry(t, p, x) == if x == v then Word(v, PU) else Entry(s, p, x)
    ensures Sharing(t, live, live, loaded)
  {
    forall q, x | q in live && 0 <= x < NENTRIES
      ensures Entry(t, q, x) == if q == p && x == v then Word(v, PU) else Entry(s, q, x)
    {
      if q != p {
        assert SameView(s, t, q);
      }
    }
    forall q, x | q in live && 0 <= x < NENTRIES ensures ReadOnlyOwned(t, q, x, loaded) {
      assert ReadOnlyOwned(s, q, x, loaded);
    }
    forall a, y, q, x | a in live && 0 <= y < NENTRIES && q in live && 0 <= x < NENTRIES ensures Alone(t, a, y, q, x) {
      assert Alone(s, a, y, q, x);
    }
  }

  lemma DowngradeOne(at: Layout, s: KState, live: set<nat>, pid: nat, loaded: set<nat>, v: nat, end: nat)
    requires Building(at, s, live, pid, loaded) && pid < NPROC && PROC_PAGES <= v < end && Identity(s, pid, v, end)
    ensures var e := Walk(s.mem, s.procs[pid].pagetable, v);
            var r := MapPage(s, pid, v * PAGESIZE, e.frame * PAGESIZE, PU);
            && e.perm.p && r.Done? && Building(at, r.state, live, pid, loaded) && SameDescriptors(s, r.state)
            && Identity(r.state, pid, v + 1, end) && r.state.pageinfo == s.pageinfo
            && forall x :: 0 <= x < NENTRIES ==>
                 Entry(r.state, pid, x) == if x == v then Word(v, PU) else Entry(s, pid, x)
  {
    hide Core, SameViews, Sharing, Firm;
    WalkIsEntry(s, pid, v);
    MapOne(s, pid, v, v, PU);
    PutKeeps(s, live, live, pid, v, Word(v, PU));
    var t := MapPage(s, pid, v * PAGESIZE, v * PAGESIZE, PU).state;
    SharingDowngrade(s, t, live, loaded, pid, v);
    FirmHigh(at, s, t, live, pid, v);
  }

  lemma {:induction false} DowngradeBuilds(at: Layout, s: KState, live: set<nat>, pid: nat, loaded: set<nat>, v: nat,
      end: nat)
    requires Building(at, s, live, pid, loaded) && pid < NPROC && PROC_PAGES <= v <= end && Identity(s, pid, v, end)
    ensures var r := Downgrade(s, pid, v, end);
            r.Done? && r.ret == 0 && Building(at, r.state, live, pid, loaded) && SameDescriptors(s, r.state)
    decreases end - v
  {
    if v < end {
      hide Building, MapPage;
      var e := Walk(s.mem, s.procs[pid].pagetable, v);
      DowngradeOne(at, s, live, pid, loaded, v, end);
      DowngradeBuilds(at, MapPage(s, pid, v * PAGESIZE, e.frame * PAGESIZE, PU).state, live, pid, loaded, v + 1, end);
    }
  }

  lemma LoadSegmentBuilds(at: Layout, s: KState, live: set<nat>, pid: nat, loaded: set<nat>, seg: Segment)
    requires Building(at, s, live, pid, loaded) && pid < NPROC && PROC_PAGES <= seg.First()
    ensures var r := LoadSegment(s, pid, seg);
            r.Done? && r.ret == 0 ==> Building(at, r.state, live, pid, loaded) && SameDescriptors(s, r.state)
  {
    hide Building, Identity, AllocSegment, Downgrade, CopyImage;
    var first, end := seg.First(), seg.End();
    if first < end <= NPAGES {
      AllocSegmentBuilds(at, s, live, pid, loaded, first, end);
      var r := AllocSegment(s, pid, first, end);
      if r.ret == 0 {
        CopyImageBuilds(at, r.state, live, pid, loaded, seg);
        if !seg.writable {
          var t: KState := r.state.(mem := CopyImage(r.state.mem, seg));
          DowngradeBuilds(at, t, live, pid, loaded, first, end);
        }
      }
    }
  }

  /** Every segment lies in process memory. */
  predicate ProgramOk(prog: Program) {
    forall i :: 0 <= i < |prog.segments| ==> PROC_PAGES <= prog.segments[i].First()
  }

  lemma {:induction false} LoadSegmentsBuild(at: Layout, s: KState, live: set<nat>, pid: nat, loaded: set<nat>,
      segs: seq<Segment>)
    requires Building(at, s, live, pid, loaded) && pid < NPROC
    requires forall i :: 0 <= i < |segs| ==> PROC_PAGES <= segs[i].First()
    ensures var r := LoadSegments(s, pid, segs);
            r.Done? && r.ret == 0 ==> Building(at, r.state, live, pid, loaded) && SameDescriptors(s, r.state)
    decreases |segs|
  {
    if segs != [] {
      hide Building, LoadSegment;
      LoadSegmentBuilds(at, s, live, pid, loaded, segs[0]);
      var r := LoadSegment(s, pid, segs[0]);
      if r.Done? && r.ret == 0 {
        LoadSegmentsBuild(at, r.state, live, pid, loaded, segs[1..]);
      }
    }
  }

  // ---------------------------------------------------------------- process_setup

  /** New tables hold no user page, so sharing is not affected. */
  lemma SharingNew(s: KState, t: KState, live: set<nat>, tabled: set<nat>, p: nat, loaded: set<nat>)
    requires Core(s, live, tabled) && Core(t, live, tabled + {p}) && Sharing(s, live, tabled, loaded)
    requires SameViews(s, t, tabled) && OwnersKept(s, t, loaded) && p in live
    requires forall v :: 0 <= v < NENTRIES ==> Entry(t, p, v) == LowEntry(v)
    ensures Sharing(t, live, tabled + {p}, loaded + {p})
  {
    forall q, v | q in tabled + {p} && 0 <= v < NENTRIES ensures ReadOnlyOwned(t, q, v, loaded + {p}) {
      if q in tabled {
        assert SameView(s, t, q) && ReadOnlyOwned(s, q, v, loaded);
      }
    }
    forall a, v, q, x | a in tabled + {p} && 0 <= v < NENTRIES && q in tabled + {p} && 0 <= x < NENTRIES
      ensures Alone(t, a, v, q, x)
    {
      if a in tabled && q in tabled {
        assert SameView(s, t, a) && SameView(s, t, q) && Alone(s, a, v, q, x);
      } else {
        assert a in tabled || Entry(t, a, v) == LowEntry(v);
        assert q in tabled || Entry(t, q, x) == LowEntry(x);
      }
    }
  }

  /** process_setup up to the new page tables. */
  lemma SetupTables(at: Layout, s: KState, pid: nat, loaded: set<nat>, s1: KState, s2: KState, pt: int)
    requires Inv(s) && Sharing(s, Live(s), Live(s), loaded) && Anchored(at, s) && 1 <= pid < NPROC && pid !in Live(s)
    requires s1 == s.(procs := s.procs[pid := s.procs[pid].(regs := INITIAL_REGISTERS)])
    requires (s2, pt) == CopyPagetable(s1, pid) && pt != -1
    ensures 0 <= pt < NPAGES && s2.procs == s1.procs && s2.current == s1.current && s2.kpt == s.kpt
    ensures Building(at, SetPagetable(s2, pid, pt), Live(s) + {pid}, pid, loaded + {pid})
  {
    hide Core, SameViews, Sharing, SetPagetable;
    var live := Live(s) + {pid};
    LiveGrows(s, Live(s), Live(s), pid);
    CoreBounds(s, Live(s), Live(s));
    ProcsKeep(s, live, Live(s), s1);
    NewTables(s1, live, Live(s), pid, s2, pt);
    var u := SetPagetable(s2, pid, pt);
    CoreBounds(u, live, Live(s) + {pid});
    SetPagetableKeeps(s2, pid, pt);
    assert OwnersKept(s1, u, loaded) && OwnersKept(s, s1, loaded) by { LoadedNotFree(s, loaded); }
    SharingSameLive(s, s1, live, loaded);
    SharingNew(s1, u, live, Live(s), pid, loaded);
    SetupFirm(at, s, s1, u, pid);
  }

  lemma SetupFirm(at: Layout, s: KState, s1: KState, u: KState, pid: nat)
    requires Anchored(at, s) && 1 <= pid < NPROC && SameViews(s, s1, Live(s)) && SameViews(s1, u, Live(s))
    requires s1.kpt == s.kpt && u.kpt == s.kpt && s1.pageinfo == s.pageinfo && TableOk(u, pid)
    requires forall v :: 0 <= v < NENTRIES ==> Entry(u, pid, v) == LowEntry(v)
    requires forall f :: 0 <= f < NPAGES && s1.pageinfo[f].owner == PO_KERNEL ==> u.pageinfo[f].owner == PO_KERNEL
    ensures Firm(at, u, Live(s) + {pid})
  {
    SameViewsTrans(s, s1, u, Live(s));
    FirmNew(at, s, u, Live(s), pid);
  }

  lemma SetPagetableKeeps(s: KState, p: nat, pt: nat)
    requires p < NPROC && pt < NPAGES
    ensures var t := SetPagetable(s, p, pt); t.pageinfo == s.pageinfo && t.mem == s.mem && t.kpt == s.kpt
  {}

  lemma LoadedNotFree(s: KState, loaded: set<nat>)
    requires Core(s, Live(s), Live(s)) && Sharing(s, Live(s), Live(s), loaded)
    ensures 0 !in loaded
  {}

  lemma SharingSameLive(s: KState, t: KState, live: set<nat>, loaded: set<nat>)
    requires Core(s, Live(s), Live(s)) && Sharing(s, Live(s), Live(s), loaded) && Live(s) <= live
    requires Core(t, live, Live(s)) && SameViews(s, t, Live(s)) && OwnersKept(s, t, loaded)
    ensures Sharing(t, live, Live(s), loaded)
  {
    SharingSame(s, t, Live(s), live, Live(s), Live(s), loaded);
  }

  /** A successful process_setup adds one loaded, runnable process. */
  lemma ProcessSetupInv(at: Layout, s: KState, pid: nat, prog: Program, loaded: set<nat>)
    requires Inv(s) && Sharing(s, Live(s), Live(s), loaded) && Anchored(at, s)
    requires 1 <= pid < NPROC && pid !in Live(s) && ProgramOk(prog)
    ensures var r := ProcessSetup(s, pid, prog);
            r.Done? && r.ret == 0 ==>
              && Inv(r.state) && Live(r.state) == Live(s) + {pid} && r.state.procs[pid].state.Runnable?
              && (forall q :: 0 <= q < NPROC && q != pid ==> r.state.procs[q] == s.procs[q])
              && Sharing(r.state, Live(r.state), Live(r.state), loaded + {pid}) && Anchored(at, r.state)
  {
    hide Core, Sharing, LoadSegments, CopyPagetable, Building, SetupEnd, Live, Firm;
    var r := ProcessSetup(s, pid, prog);
    var s1 := s.(procs := s.procs[pid := s.procs[pid].(regs := INITIAL_REGISTERS)]);
    var (s2, pt) := CopyPagetable(s1, pid);
    if r.Done? && r.ret == 0 {
      SetupTables(at, s, pid, loaded, s1, s2, pt);
      var u := SetPagetable(s2, pid, pt);
      var live, all := Live(s) + {pid}, loaded + {pid};
      LoadSegmentsBuild(at, u, live, pid, all, prog.segments);
      var s3 := LoadSegments(u, pid, prog.segments).state;
      SetupFinish(at, s, s3, pid, live, all, prog.entry);
    }
  }

  ghost predicate IsSetUp(at: Layout, s: KState, t: KState, pid: nat, live: set<nat>, loaded: set<nat>) {
    && Inv(t) && Live(t) == live && Sharing(t, live, live, loaded) && Firm(at, t, live)
    && forall q :: 0 <= q < NPROC && q != pid ==> t.procs[q] == s.procs[q]
  }

  /** The stack page, the entry point, and the process is runnable. */
  lemma SetupFinish(at: Layout, s: KState, s3: KState, pid: nat, live: set<nat>, loaded: set<nat>, entry: nat)
    requires Inv(s) && 1 <= pid < NPROC && live == Live(s) + {pid} && Building(at, s3, live, pid, loaded)
    requires s3.procs == s.procs[pid := s3.procs[pid]] && s3.procs[pid].pid == pid
    requires s3.current == s.current
    ensures var r := SetupEnd(s3, pid, entry);
            && (r.Panic? <==> AllocFree(s3, NPAGES, pid).1 == -1)
            && (!r.Panic? ==>
                  && r.Done? && r.ret == 0 && IsSetUp(at, s, r.state, pid, live, loaded)
                  && r.state.procs[pid].state.Runnable?)
  {
    hide Core, Sharing, MapPage, Building, Firm;
    var s4: KState := s3.(procs := s3.procs[pid := s3.procs[pid].(regs :=
                        s3.procs[pid].regs.(eip := entry, esp := VIRT_PAGES * PAGESIZE))]);
    BuildingKeeps(at, s3, s4, live, pid, loaded);
    var (s5, f) := AllocFree(s4, NPAGES, pid);
    if f != -1 {
      AllocFreeIs(at, s4, live, pid, loaded, s5, f);
      TakePage(at, s4, live, pid, loaded, VIRT_PAGES - 1, f);
      var s6 := MapPage(s5, pid, (VIRT_PAGES - 1) * PAGESIZE, f * PAGESIZE, PWU).state;
      var t: KState := s6.(procs := s6.procs[pid := s6.procs[pid].(state := Runnable)]);
      BuildingKeeps(at, s6, t, live, pid, loaded);
      assert Live(t) == live;
      BuildingGives(at, t, live, pid, loaded);
    }
  }

  lemma BuildingGives(at: Layout, s: KState, live: set<nat>, pid: nat, loaded: set<nat>)
    requires Building(at, s, live, pid, loaded)
    ensures Core(s, live, live) && Sharing(s, live, live, loaded) && Firm(at, s, live)
  {}

  lemma AllocFreeIs(at: Layout, s: KState, live: set<nat>, pid: nat, loaded: set<nat>, s1: KState, f: int)
    requires Building(at, s, live, pid, loaded) && pid < NPROC && (s1, f) == AllocFree(s, NPAGES, pid) && f != -1
    ensures 0 <= f < NPAGES && s.pageinfo[f].owner == PO_FREE && s1 == Grab(s, f, pid)
  {}

  lemma BuildingKeeps(at: Layout, s: KState, t: KState, live: set<nat>, pid: nat, loaded: set<nat>)
    requires Building(at, s, live, pid, loaded) && t.pageinfo == s.pageinfo && t.mem == s.mem && t.kpt == s.kpt
    requires forall p :: 0 <= p < NPROC ==> t.procs[p].pagetable == s.procs[p].pagetable
    ensures Building(at, t, live, pid, loaded)
  {
    ProcsKeep(s, live, live, t);
    SharingSame(s, t, live, live, live, live, loaded);
    FirmSame(at, s, t, live, live);
  }

  // ---------------------------------------------------------------- boot

  lemma InitialInv(at: Layout, ram: seq<Page>)
    requires |ram| == NPAGES
    ensures var s := InitialState(at, ram);
            Inv(s) && Live(s) == {} && Sharing(s, {}, {}, {}) && Anchored(at, s)
  {
    var s := InitialState(at, ram);
    assert Live(s) == {};
    assert s.mem[at.kpt][0] == Word(at.kl2, PWU);
    forall v | 0 <= v < NPAGES ensures s.mem[at.kl2][v].perm.p && s.mem[at.kl2][v].frame == v {
    }
  }

  ghost predicate ProgramsOk(programs: seq<Program>) {
    1 <= |programs| < NPROC && forall i :: 0 <= i < |programs| ==> ProgramOk(programs[i])
  }

  /** The process numbers 1, ..., n - 1. */
  ghost function UpTo(n: nat): (r: set<nat>)
    ensures forall p :: p in r <==> 1 <= p < n
  {
    if n <= 1 then {} else UpTo(n - 1) + {n - 1}
  }

  /** Running process 1 after the last process_setup. */
  lemma StartInv(at: Layout, s: KState, loaded: set<nat>)
    requires Inv(s) && Live(s) == loaded && Sharing(s, Live(s), Live(s), loaded) && Anchored(at, s)
    requires s.procs[1].state.Runnable?
    ensures RunProcess(at, s, 1) == Done(s.(current := 1), 0)
    ensures Good(s.(current := 1)) && Sharing(s.(current := 1), Live(s), Live(s), loaded)
    ensures Live(s.(current := 1)) == Live(s)
    ensures Anchored(at, s.(current := 1))
  {
    hide Core, Sharing, RunProcess, SameViews, AnchoredAt;
    RunInv(at, s, 1);
    AnchoredSame(at, s, s.(current := 1));
    SharingCurrent(s, s.(current := 1), loaded);
  }

  lemma SharingCurrent(s: KState, t: KState, loaded: set<nat>)
    requires Inv(s) && Inv(t) && Live(t) == Live(s) && SameViews(s, t, Live(s)) && t.pageinfo == s.pageinfo
    requires Sharing(s, Live(s), Live(s), loaded)
    ensures Sharing(t, Live(t), Live(t), loaded)
  {
    SharingSame(s, t, Live(s), Live(t), Live(s), Live(t), loaded);
  }
}
