/**
 * What a program finds when it starts: its segments at their addresses, its stack and its entry
 * point, whatever was loaded before and after it (pset6/kernel.c:182-201, pset6/k-loader.c:45-99).
 */
module KernelLoading {
  import opened Machine
  import opened Paging
  import opened KernelSpec
  import opened KernelInvariant
  import opened KernelFork
  import opened KernelAnchors
  import opened KernelSteps
  import opened KernelSharing
  import opened KernelBoot
  import opened KernelRuns

  /** From s to t, process pid's mappings and the pages in memory changed in [v, end) only. */
  ghost predicate Changed(s: KState, t: KState, pid: nat, v: nat, end: nat) {
    && pid < NPROC && TableOk(s, pid) && TableOk(t, pid) && Level2(t, pid) == Level2(s, pid) && SameDescriptors(s, t)
    && (forall x :: 0 <= x < NENTRIES && !(v <= x < end) ==> Entry(t, pid, x) == Entry(s, pid, x))
    && forall f :: 0 <= f < NPAGES && !(v <= f < end) ==>
         t.pageinfo[f] == s.pageinfo[f] && (f != Level2(s, pid) ==> t.mem[f] == s.mem[f])
  }

  lemma ChangedTrans(s: KState, t: KState, u: KState, pid: nat, v: nat, end: nat)
    requires Changed(s, t, pid, v, end) && Changed(t, u, pid, v, end)
    ensures Changed(s, u, pid, v, end)
  {}

  /** Mapping one page stores to the level-2 table only. */
  lemma MapChanges(s: KState, pid: nat, v: nat, f: nat, perm: Perm)
    requires pid < NPROC && TableOk(s, pid) && v < NENTRIES && f < NPAGES && perm.p
    ensures var r := MapPage(s, pid, v * PAGESIZE, f * PAGESIZE, perm);
      && r.Done? && TableOk(r.state, pid) && Level2(r.state, pid) == Level2(s, pid) && SameDescriptors(s, r.state)
      && r.state.pageinfo == s.pageinfo && (forall g :: 0 <= g < NPAGES && g != Level2(s, pid) ==>
           r.state.mem[g] == s.mem[g])
      && forall x :: 0 <= x < NENTRIES ==> Entry(r.state, pid, x) == if x == v then Word(f, perm) else Entry(s, pid, x)
  {
    MapOne(s, pid, v, f, perm);
  }

  /** From s to t, memory changed in the level-2 table of process pid only. */
  ghost predicate ContentsKept(s: KState, t: KState, pid: nat)
    requires pid < NPROC
  {
    forall f :: 0 <= f < NPAGES && f != Level2(s, pid) ==> t.mem[f] == s.mem[f]
  }

  ghost predicate AllFree(s: KState, v: nat, end: nat) {
    forall f :: v <= f < end && f < NPAGES ==> s.pageinfo[f].owner == PO_FREE
  }

  /** A segment gets pages that were free. */
  lemma {:induction false} AllocSegmentChanges(at: Layout, s: KState, live: set<nat>, pid: nat, loaded: set<nat>,
      v: nat, end: nat)
    requires Building(at, s, live, pid, loaded) && pid < NPROC && PROC_PAGES <= v <= end <= NPAGES
    ensures var r := AllocSegment(s, pid, v, end);
      r.Done? && r.ret == 0 ==>
        Changed(s, r.state, pid, v, end) && AllFree(s, v, end) && ContentsKept(s, r.state, pid)
    decreases end - v
  {
    if v == end {
      BuildingTable(at, s, live, pid, loaded);
    } else if s.pageinfo[v].refcount == 0 {
      hide Building, MapPage, Changed;
      ZeroIsFree(at, s, live, pid, loaded, v);
      BuildingTable(at, s, live, pid, loaded);
      TakePage(at, s, live, pid, loaded, v, v);
      TakeChanges(s, pid, v, v);
      var u := MapPage(Grab(s, v, pid), pid, v * PAGESIZE, v * PAGESIZE, PWU).state;
      AllocSegmentChanges(at, u, live, pid, loaded, v + 1, end);
      var r := AllocSegment(u, pid, v + 1, end);
      if r.Done? && r.ret == 0 {
        ChangedMore(s, u, r.state, pid, v, end);
      }
    }
  }

  lemma ChangedMore(s: KState, u: KState, t: KState, pid: nat, v: nat, end: nat)
    requires v < end <= NPAGES && Changed(s, u, pid, v, v + 1) && Changed(u, t, pid, v + 1, end)
    requires s.pageinfo[v].owner == PO_FREE && AllFree(u, v + 1, end)
    requires ContentsKept(s, u, pid) && ContentsKept(u, t, pid)
    ensures Changed(s, t, pid, v, end) && AllFree(s, v, end) && ContentsKept(s, t, pid)
  {}

  /** A free page f goes to process pid, mapped at page v. */
  lemma TakeChanges(s: KState, pid: nat, v: nat, f: nat)
    requires 1 <= pid < NPROC && TableOk(s, pid) && v < NENTRIES && f < NPAGES && s.pageinfo[f].owner == PO_FREE
    ensures var r := MapPage(Grab(s, f, pid), pid, v * PAGESIZE, f * PAGESIZE, PWU);
      && r.Done? && TableOk(r.state, pid) && Level2(r.state, pid) == Level2(s, pid) && SameDescriptors(s, r.state)
      && r.state.pageinfo == s.pageinfo[f := PageInfo(pid, 1)]
      && ContentsKept(s, r.state, pid)
      && (forall x :: 0 <= x < NENTRIES ==> Entry(r.state, pid, x) == if x == v then Word(f, PWU) else Entry(s, pid, x))
      && (v == f ==> Changed(s, r.state, pid, v, v + 1))
  {
    hide MapPage;
    assert TableOk(Grab(s, f, pid), pid);
    MapChanges(Grab(s, f, pid), pid, v, f, PWU);
  }

  lemma BuildingTable(at: Layout, s: KState, live: set<nat>, pid: nat, loaded: set<nat>)
    requires Building(at, s, live, pid, loaded)
    ensures 1 <= pid < NPROC && TableOk(s, pid)
  {}

  ghost predicate InSegment(seg: Segment, v: int) { seg.First() <= v < seg.End() }

  /** Process pid has page x of the segment at its own address, with the segment's contents and write flag. */
  ghost predicate HoldsPage(s: KState, pid: nat, seg: Segment, x: int, was: seq<Page>)
    requires pid < NPROC && TableOk(s, pid) && InSegment(seg, x) && |was| == NPAGES
  {
    && x < NPAGES && s.pageinfo[x].owner == pid && s.mem[x] == LoadedPage(seg, x, was[x])
    && Entry(s, pid, x) == Word(x, if seg.writable then PWU else PU)
  }

  /** The segment is loaded for process pid; `was` is what memory held before. */
  ghost predicate Holds(s: KState, pid: nat, seg: Segment, was: seq<Page>) {
    && pid < NPROC && TableOk(s, pid) && |was| == NPAGES
    && forall x :: InSegment(seg, x) ==> HoldsPage(s, pid, seg, x, was)
  }

  /** Process pid lost write access to pages [v, end), and nothing else. */
  ghost predicate Downgraded(s: KState, t: KState, pid: nat, v: nat, end: nat) {
    && Changed(s, t, pid, v, end) && t.pageinfo == s.pageinfo && end <= NPAGES
    && (forall f :: 0 <= f < NPAGES && f != Level2(s, pid) ==> t.mem[f] == s.mem[f])
    && forall x :: v <= x < end ==> Entry(t, pid, x) == Word(x, PU)
  }

  lemma DowngradedMore(s: KState, u: KState, t: KState, pid: nat, v: nat, end: nat)
    requires pid < NPROC && TableOk(s, pid) && TableOk(u, pid) && SameDescriptors(s, u) && v < end <= NPAGES
    requires Level2(u, pid) == Level2(s, pid) && u.pageinfo == s.pageinfo
    requires forall f :: 0 <= f < NPAGES && f != Level2(s, pid) ==> u.mem[f] == s.mem[f]
    requires forall x :: 0 <= x < NENTRIES ==> Entry(u, pid, x) == if x == v then Word(v, PU) else Entry(s, pid, x)
    requires Downgraded(u, t, pid, v + 1, end)
    ensures Downgraded(s, t, pid, v, end)
  {}

  lemma {:induction false} DowngradeChanges(s: KState, pid: nat, v: nat, end: nat)
    requires pid < NPROC && PROC_PAGES <= v <= end && Identity(s, pid, v, end)
    ensures var r := Downgrade(s, pid, v, end); r.Done? && r.ret == 0 && Downgraded(s, r.state, pid, v, end)
    decreases end - v
  {
    if v < end {
      hide MapPage, Downgraded;
      WalkIsEntry(s, pid, v);
      MapChanges(s, pid, v, v, PU);
      var u := MapPage(s, pid, v * PAGESIZE, v * PAGESIZE, PU).state;
      DowngradeChanges(u, pid, v + 1, end);
      DowngradedMore(s, u, Downgrade(u, pid, v + 1, end).state, pid, v, end);
    }
  }

  /** The pages of a segment that is loaded were free; afterwards they hold it. */
  lemma LoadSegmentHolds(at: Layout, s: KState, live: set<nat>, pid: nat, loaded: set<nat>, seg: Segment)
    requires Building(at, s, live, pid, loaded) && pid < NPROC && PROC_PAGES <= seg.First()
    ensures var r := LoadSegment(s, pid, seg);
      r.Done? && r.ret == 0 && seg.First() < seg.End() ==>
        && AllFree(s, seg.First(), seg.End()) && Changed(s, r.state, pid, seg.First(), seg.End())
        && Holds(r.state, pid, seg, s.mem)
  {
    hide Building, AllocSegment, Downgrade, CopyImage, Identity, Changed, Downgraded, ContentsKept;
    var first, end := seg.First(), seg.End();
    if first < end <= NPAGES {
      AllocSegmentBuilds(at, s, live, pid, loaded, first, end);
      AllocSegmentChanges(at, s, live, pid, loaded, first, end);
      var r := AllocSegment(s, pid, first, end);
      if r.ret == 0 {
        CopyImageBuilds(at, r.state, live, pid, loaded, seg);
        var t: KState := r.state.(mem := CopyImage(r.state.mem, seg));
        CopyChanges(s, r.state, t, pid, seg);
        if seg.writable {
          WritableHolds(s, t, pid, seg);
        } else {
          DowngradeChanges(t, pid, first, end);
          var u := Downgrade(t, pid, first, end).state;
          ReadOnlyHolds(s, t, u, pid, seg);
        }
      }
    }
  }

  /** The segment's contents are in its pages. */
  ghost predicate Filled(s: KState, seg: Segment, was: seq<Page>) {
    |was| == NPAGES && forall x :: InSegment(seg, x) && x < NPAGES ==> s.mem[x] == LoadedPage(seg, x, was[x])
  }

  lemma CopyChanges(s: KState, t: KState, u: KState, pid: nat, seg: Segment)
    requires PROC_PAGES <= seg.First() && seg.End() <= NPAGES && Changed(s, t, pid, seg.First(), seg.End())
    requires ContentsKept(s, t, pid) && u == t.(mem := CopyImage(t.mem, seg))
    ensures Changed(s, u, pid, seg.First(), seg.End()) && Filled(u, seg, s.mem)
  {
    hide LoadedPage;
    assert TableOk(u, pid) && Level2(u, pid) == Level2(t, pid);
  }

  lemma WritableHolds(s: KState, t: KState, pid: nat, seg: Segment)
    requires seg.writable && Identity(t, pid, seg.First(), seg.End()) && Filled(t, seg, s.mem)
    ensures Holds(t, pid, seg, s.mem)
  {}

  lemma ReadOnlyHolds(s: KState, t: KState, u: KState, pid: nat, seg: Segment)
    requires !seg.writable && PROC_PAGES <= seg.First() && Changed(s, t, pid, seg.First(), seg.End())
    requires Identity(t, pid, seg.First(), seg.End()) && Filled(t, seg, s.mem)
    requires Downgraded(t, u, pid, seg.First(), seg.End())
    ensures Changed(s, u, pid, seg.First(), seg.End()) && Holds(u, pid, seg, s.mem)
  {
    hide LoadedPage;
    ChangedTrans(s, t, u, pid, seg.First(), seg.End());
  }

  // ---------------------------------------------------------------- all segments of a program

  ghost predicate InSegments(segs: seq<Segment>, x: int) {
    exists i :: 0 <= i < |segs| && InSegment(segs[i], x)
  }

  /**
   * From s to t, process pid got the segments, in pages that were free; its other mappings and all
   * other pages stay.
   */
  ghost predicate Loaded(s: KState, t: KState, pid: nat, segs: seq<Segment>) {
    && pid < NPROC && TableOk(s, pid) && TableOk(t, pid) && Level2(t, pid) == Level2(s, pid) && SameDescriptors(s, t)
    && (forall i :: 0 <= i < |segs| ==> Holds(t, pid, segs[i], s.mem))
    && (forall x :: 0 <= x < NENTRIES && !InSegments(segs, x) ==> Entry(t, pid, x) == Entry(s, pid, x))
    && (forall f :: 0 <= f < NPAGES && !InSegments(segs, f) ==>
          t.pageinfo[f] == s.pageinfo[f] && (f != Level2(s, pid) ==> t.mem[f] == s.mem[f]))
    && forall f :: 0 <= f < NPAGES && s.pageinfo[f].owner != PO_FREE ==> !InSegments(segs, f)
  }

  lemma {:induction false} LoadSegmentsHold(at: Layout, s: KState, live: set<nat>, pid: nat, loaded: set<nat>,
      segs: seq<Segment>)
    requires Building(at, s, live, pid, loaded) && pid < NPROC
    requires forall i :: 0 <= i < |segs| ==> PROC_PAGES <= segs[i].First()
    ensures var r := LoadSegments(s, pid, segs); r.Done? && r.ret == 0 ==> Loaded(s, r.state, pid, segs)
    decreases |segs|
  {
    hide Building, LoadSegment, Loaded, Changed, Holds;
    BuildingTable(at, s, live, pid, loaded);
    if segs == [] {
      NothingLoaded(s, pid);
    } else {
      LoadSegmentBuilds(at, s, live, pid, loaded, segs[0]);
      LoadSegmentHolds(at, s, live, pid, loaded, segs[0]);
      var r := LoadSegment(s, pid, segs[0]);
      if r.Done? && r.ret == 0 {
        FirstLoaded(s, pid, segs[0]);
        LoadSegmentsHold(at, r.state, live, pid, loaded, segs[1..]);
        var q := LoadSegments(r.state, pid, segs[1..]);
        if q.Done? && q.ret == 0 {
          LoadedMore(s, r.state, q.state, pid, segs);
        }
      }
    }
  }

  lemma NothingLoaded(s: KState, pid: nat)
    requires pid < NPROC && TableOk(s, pid)
    ensures Loaded(s, s, pid, [])
  {}

  lemma FirstLoaded(s: KState, pid: nat, seg: Segment)
    requires pid < NPROC && TableOk(s, pid)
    requires var r := LoadSegment(s, pid, seg);
      r.Done? && (seg.First() < seg.End() ==>
        && AllFree(s, seg.First(), seg.End()) && Changed(s, r.state, pid, seg.First(), seg.End())
        && Holds(r.state, pid, seg, s.mem))
    ensures Loaded(s, LoadSegment(s, pid, seg).state, pid, [seg])
  {
    hide LoadedPage;
    assert forall x :: InSegments([seg], x) <==> InSegment(seg, x) by {
      assert [seg][0] == seg;
    }
  }

  lemma LoadedMore(s: KState, u: KState, t: KState, pid: nat, segs: seq<Segment>)
    requires segs != [] && Loaded(s, u, pid, [segs[0]]) && Loaded(u, t, pid, segs[1..])
    requires forall i :: 0 <= i < |segs| ==> PROC_PAGES <= segs[i].First()
    ensures Loaded(s, t, pid, segs)
  {
    hide LoadedPage, InSegment;
    SegmentsSplit(segs);
    assert Holds(u, pid, [segs[0]][0], s.mem);
    forall i | 0 <= i < |segs| ensures Holds(t, pid, segs[i], s.mem) {
      if i == 0 {
        HoldsOn(u, t, pid, segs[0], segs[1..], s.mem);
      } else {
        assert segs[i] == segs[1..][i - 1];
        HoldsBefore(s, u, t, pid, segs[0], segs[i]);
      }
    }
  }

  /** What a later segment found in its pages was there before the first was loaded. */
  lemma HoldsBefore(s: KState, u: KState, t: KState, pid: nat, first: Segment, seg: Segment)
    requires Loaded(s, u, pid, [first]) && Holds(t, pid, seg, u.mem) && PROC_PAGES <= seg.First()
    requires forall f :: 0 <= f < NPAGES && u.pageinfo[f].owner != PO_FREE ==> !InSegment(seg, f)
    ensures Holds(t, pid, seg, s.mem)
  {
    FirstTaken(s, u, pid, first);
    forall x | InSegment(seg, x) ensures HoldsPage(t, pid, seg, x, s.mem) {
      assert HoldsPage(t, pid, seg, x, u.mem);
    }
  }

  lemma FirstTaken(s: KState, u: KState, pid: nat, first: Segment)
    requires Loaded(s, u, pid, [first])
    ensures forall x :: InSegments([first], x) ==> 0 <= x < NPAGES && u.pageinfo[x].owner != PO_FREE
  {
    assert Holds(u, pid, [first][0], s.mem);
    forall x | InSegments([first], x) ensures 0 <= x < NPAGES && u.pageinfo[x].owner == pid && pid > 0 {
      assert HoldsPage(u, pid, first, x, s.mem);
    }
  }

  lemma SegmentsSplit(segs: seq<Segment>)
    requires segs != []
    ensures forall x :: InSegments(segs, x) <==> InSegments([segs[0]], x) || InSegments(segs[1..], x)
  {
    forall x ensures InSegments(segs, x) <==> InSegments([segs[0]], x) || InSegments(segs[1..], x) {
      if InSegments([segs[0]], x) {
        assert InSegment(segs[0], x);
      }
      if InSegments(segs[1..], x) {
        var i :| 0 <= i < |segs[1..]| && InSegment(segs[1..][i], x);
        assert segs[i + 1] == segs[1..][i];
      }
      if InSegments(segs, x) {
        var i :| 0 <= i < |segs| && InSegment(segs[i], x);
        if i == 0 {
          assert [segs[0]][0] == segs[0];
        } else {
          assert segs[i] == segs[1..][i - 1];
        }
      }
    }
  }

  /** Loading more segments leaves the ones before as they are. */
  lemma HoldsOn(s: KState, t: KState, pid: nat, seg: Segment, segs: seq<Segment>, was: seq<Page>)
    requires Holds(s, pid, seg, was) && Loaded(s, t, pid, segs) && PROC_PAGES <= seg.First()
    ensures Holds(t, pid, seg, was)
  {
    hide LoadedPage;
    forall x | InSegment(seg, x) ensures HoldsPage(t, pid, seg, x, was) {
      assert HoldsPage(s, pid, seg, x, was);
    }
  }

  // ---------------------------------------------------------------- process_setup

  /** Pages in use and the other processes' descriptors are as they were. */
  ghost predicate InUseKept(s: KState, t: KState, pid: nat) {
    && (forall f :: 0 <= f < NPAGES && s.pageinfo[f].owner != PO_FREE ==>
          t.pageinfo[f] == s.pageinfo[f] && t.mem[f] == s.mem[f])
    && forall q :: 0 <= q < NPROC && q != pid ==> t.procs[q] == s.procs[q]
  }

  /** The segment selectors have privilege level 3, and interrupts are on. */
  predicate UserMode(regs: Registers) {
    regs.cs % 4 == 3 && regs.ds % 4 == 3 && regs.es % 4 == 3 && regs.ss % 4 == 3 && regs.eflags / 0x200 % 2 == 1
  }

  /** In process memory, the segments' pages were free, and the others keep what they held. */
  ghost predicate Fresh(s: KState, t: KState, segs: seq<Segment>) {
    forall f :: PROC_PAGES <= f < NPAGES ==>
      && (InSegments(segs, f) ==> s.pageinfo[f].owner == PO_FREE)
      && (!InSegments(segs, f) ==> t.mem[f] == s.mem[f])
      && (t.pageinfo[f].owner == PO_FREE ==> s.pageinfo[f].owner == PO_FREE && !InSegments(segs, f))
  }

  /** Process p is ready to run prog, with its own pages mapped; `was` is what memory held before it was loaded. */
  ghost predicate ReadyToStart(s: KState, p: nat, prog: Program, was: seq<Page>) {
    && 1 <= p < NPROC && TableOk(s, p) && s.procs[p].state.Runnable?
    && s.procs[p].regs.eip == prog.entry && s.procs[p].regs.esp == VIRT_PAGES * PAGESIZE && UserMode(s.procs[p].regs)
    && (forall i :: 0 <= i < |prog.segments| ==> Holds(s, p, prog.segments[i], was))
    && (var e := Entry(s, p, VIRT_PAGES - 1); e == Word(e.frame, PWU) && e.frame < NPAGES)
    && forall x :: 0 <= x < NENTRIES && x != VIRT_PAGES - 1 && !InSegments(prog.segments, x) ==>
         Entry(s, p, x) == LowEntry(x)
  }

  /** What is set up afterwards does not disturb it. */
  lemma StaysReady(s: KState, t: KState, pid: nat, p: nat, prog: Program, was: seq<Page>)
    requires ReadyToStart(s, p, prog, was) && InUseKept(s, t, pid) && p != pid
    ensures ReadyToStart(t, p, prog, was)
  {
    hide LoadedPage;
    assert TableOk(t, p) && Level2(t, p) == Level2(s, p) && t.mem[Level2(s, p)] == s.mem[Level2(s, p)];
    assert forall x :: 0 <= x < NENTRIES ==> Entry(t, p, x) == Entry(s, p, x);
    forall i | 0 <= i < |prog.segments| ensures Holds(t, p, prog.segments[i], was) {
      var seg := prog.segments[i];
      assert Holds(s, p, seg, was);
      forall x | InSegment(seg, x) ensures HoldsPage(t, p, seg, x, was) {
        assert HoldsPage(s, p, seg, x, was);
      }
    }
  }

  /** Only what the segments' own pages held before matters. */
  lemma ReadySame(s: KState, p: nat, prog: Program, was: seq<Page>, now: seq<Page>)
    requires ReadyToStart(s, p, prog, was) && |now| == NPAGES
    requires forall f :: 0 <= f < NPAGES && InSegments(prog.segments, f) ==> now[f] == was[f]
    ensures ReadyToStart(s, p, prog, now)
  {
    hide LoadedPage;
    forall i | 0 <= i < |prog.segments| ensures Holds(s, p, prog.segments[i], now) {
      var seg := prog.segments[i];
      assert Holds(s, p, seg, was);
      forall x | InSegment(seg, x) ensures HoldsPage(s, p, seg, x, now) {
        assert HoldsPage(s, p, seg, x, was) && InSegments(prog.segments, x);
      }
    }
  }

  /** The new page tables lie in pages that were free. */
  lemma TablesKeep(at: Layout, s: KState, pid: nat, s1: KState, s2: KState, pt: int)
    requires Inv(s) && 1 <= pid < NPROC && pid !in Live(s)
    requires s1 == s.(procs := s.procs[pid := s.procs[pid].(regs := INITIAL_REGISTERS)])
    requires (s2, pt) == CopyPagetable(s1, pid) && pt != -1
    ensures 0 <= pt < NPAGES
    ensures var u := SetPagetable(s2, pid, pt);
      && TableOk(u, pid) && InUseKept(s, u, pid) && s.pageinfo[Level2(u, pid)].owner == PO_FREE
      && UserMode(u.procs[pid].regs) && (forall f :: PROC_PAGES <= f < NPAGES ==> u.mem[f] == s.mem[f])
      && forall x :: 0 <= x < NENTRIES ==> Entry(u, pid, x) == LowEntry(x)
  {
    hide Core, SameViews, CopyPagetable;
    var live := Live(s) + {pid};
    LiveGrows(s, Live(s), Live(s), pid);
    CoreBounds(s, Live(s), Live(s));
    ProcsKeep(s, live, Live(s), s1);
    NewTables(s1, live, Live(s), pid, s2, pt);
    var u := SetPagetable(s2, pid, pt);
    CoreBounds(u, live, Live(s) + {pid});
    assert PageOk(s.pageinfo[Level2(u, pid)], Live(s));
    TablesLow(s1, pid, s2, pt);
  }

  lemma TablesLow(s: KState, p: nat, t: KState, pt: int)
    requires (t, pt) == CopyPagetable(s, p)
    ensures forall f :: PROC_PAGES <= f < NPAGES ==> t.mem[f] == s.mem[f]
  {}

  /** process_setup prepares its process, in pages that were free. */
  lemma SetupPrepares(at: Layout, s: KState, pid: nat, prog: Program, loaded: set<nat>)
    requires Inv(s) && Sharing(s, Live(s), Live(s), loaded) && Anchored(at, s)
    requires 1 <= pid < NPROC && pid !in Live(s) && ProgramOk(prog)
    ensures var r := ProcessSetup(s, pid, prog);
      r.Done? && r.ret == 0 ==>
        ReadyToStart(r.state, pid, prog, s.mem) && InUseKept(s, r.state, pid) && Fresh(s, r.state, prog.segments)
  {
    hide Core, Sharing, LoadSegments, CopyPagetable, Building, SetupEnd, Live, Firm, Loaded, ReadyToStart, InUseKept;
    hide Fresh;
    var r := ProcessSetup(s, pid, prog);
    var s1 := s.(procs := s.procs[pid := s.procs[pid].(regs := INITIAL_REGISTERS)]);
    var (s2, pt) := CopyPagetable(s1, pid);
    if r.Done? && r.ret == 0 {
      SetupTables(at, s, pid, loaded, s1, s2, pt);
      TablesKeep(at, s, pid, s1, s2, pt);
      var u := SetPagetable(s2, pid, pt);
      var live, all := Live(s) + {pid}, loaded + {pid};
      LoadSegmentsBuild(at, u, live, pid, all, prog.segments);
      LoadSegmentsHold(at, u, live, pid, all, prog.segments);
      var s3 := LoadSegments(u, pid, prog.segments).state;
      StackPrepares(at, s, u, s3, pid, live, all, prog);
    }
  }

  lemma StackPrepares(at: Layout, s: KState, u: KState, s3: KState, pid: nat, live: set<nat>, loaded: set<nat>,
      prog: Program)
    requires 1 <= pid < NPROC && Building(at, s3, live, pid, loaded) && Loaded(u, s3, pid, prog.segments)
    requires TableOk(u, pid) && InUseKept(s, u, pid) && s.pageinfo[Level2(u, pid)].owner == PO_FREE
    requires forall x :: 0 <= x < NENTRIES ==> Entry(u, pid, x) == LowEntry(x)
    requires ProgramOk(prog) && UserMode(u.procs[pid].regs)
    requires forall f :: PROC_PAGES <= f < NPAGES ==> u.mem[f] == s.mem[f]
    ensures var r := SetupEnd(s3, pid, prog.entry);
      || r.Panic?
      || (r.Done? && ReadyToStart(r.state, pid, prog, s.mem) && InUseKept(s, r.state, pid)
          && Fresh(s, r.state, prog.segments))
  {
    hide Core, Sharing, MapPage, Building, Firm, Holds, Loaded, ReadyToStart, Fresh;
    BuildingTable(at, s3, live, pid, loaded);
    var s4: KState := s3.(procs := s3.procs[pid := s3.procs[pid].(regs :=
                        s3.procs[pid].regs.(eip := prog.entry, esp := VIRT_PAGES * PAGESIZE))]);
    BuildingKeeps(at, s3, s4, live, pid, loaded);
    assert TableOk(s4, pid) && Level2(s4, pid) == Level2(s3, pid);
    var (s5, f) := AllocFree(s4, NPAGES, pid);
    if f != -1 {
      AllocFreeIs(at, s4, live, pid, loaded, s5, f);
      TakeChanges(s4, pid, VIRT_PAGES - 1, f);
      var s6 := MapPage(s5, pid, (VIRT_PAGES - 1) * PAGESIZE, f * PAGESIZE, PWU).state;
      var t: KState := s6.(procs := s6.procs[pid := s6.procs[pid].(state := Runnable)]);
      assert forall x :: 0 <= x < NENTRIES ==> Entry(s4, pid, x) == Entry(s3, pid, x);
      assert TableOk(t, pid) && Level2(t, pid) == Level2(s3, pid) && t.mem == s6.mem;
      assert forall x :: 0 <= x < NENTRIES ==> Entry(t, pid, x) == Entry(s6, pid, x);
      LoadedTables(u, s3, pid, prog.segments);
      StackKeeps(s, u, s3, t, pid, prog, f);
      StackFresh(s, u, s3, t, pid, prog, f);
      StackReady(u, s3, t, pid, prog, f);
      ReadySame(t, pid, prog, u.mem, s.mem) by { SegmentsHigh(prog); }
    }
  }

  lemma LoadedTables(s: KState, t: KState, pid: nat, segs: seq<Segment>)
    requires Loaded(s, t, pid, segs)
    ensures pid < NPROC && TableOk(s, pid) && TableOk(t, pid) && Level2(t, pid) == Level2(s, pid)
    ensures SameDescriptors(s, t)
  {}

  lemma StackKeeps(s: KState, u: KState, s3: KState, t: KState, pid: nat, prog: Program, f: nat)
    requires Loaded(u, s3, pid, prog.segments) && InUseKept(s, u, pid) && TableOk(u, pid)
    requires s.pageinfo[Level2(u, pid)].owner == PO_FREE && f < NPAGES && s3.pageinfo[f].owner == PO_FREE
    requires t.pageinfo == s3.pageinfo[f := PageInfo(pid, 1)]
    requires forall g :: 0 <= g < NPAGES && g != Level2(u, pid) ==> t.mem[g] == s3.mem[g]
    requires forall q :: 0 <= q < NPROC && q != pid ==> t.procs[q] == s3.procs[q]
    ensures InUseKept(s, t, pid)
  {}

  lemma SegmentsHigh(prog: Program)
    requires ProgramOk(prog)
    ensures forall f :: InSegments(prog.segments, f) ==> PROC_PAGES <= f
  {}

  lemma StackFresh(s: KState, u: KState, s3: KState, t: KState, pid: nat, prog: Program, f: nat)
    requires Loaded(u, s3, pid, prog.segments) && InUseKept(s, u, pid) && 1 <= pid
    requires f < NPAGES && t.pageinfo == s3.pageinfo[f := PageInfo(pid, 1)]
    requires forall g :: 0 <= g < NPAGES && g != Level2(s3, pid) ==> t.mem[g] == s3.mem[g]
    requires forall f :: PROC_PAGES <= f < NPAGES ==> u.mem[f] == s.mem[f]
    ensures Fresh(s, t, prog.segments)
  {
    forall g | PROC_PAGES <= g < NPAGES && InSegments(prog.segments, g) ensures s3.pageinfo[g].owner == pid {
      var i :| 0 <= i < |prog.segments| && InSegment(prog.segments[i], g);
      assert Holds(s3, pid, prog.segments[i], u.mem) && HoldsPage(s3, pid, prog.segments[i], g, u.mem);
    }
  }

  lemma StackReady(u: KState, s3: KState, t: KState, pid: nat, prog: Program, f: nat)
    requires Loaded(u, s3, pid, prog.segments) && ProgramOk(prog) && 1 <= pid < NPROC && f < NPAGES
    requires s3.pageinfo[f].owner == PO_FREE && t.pageinfo == s3.pageinfo[f := PageInfo(pid, 1)]
    requires TableOk(t, pid) && Level2(t, pid) == Level2(s3, pid)
    requires forall g :: 0 <= g < NPAGES && g != Level2(s3, pid) ==> t.mem[g] == s3.mem[g]
    requires forall x :: 0 <= x < NENTRIES ==> Entry(u, pid, x) == LowEntry(x)
    requires forall x :: 0 <= x < NENTRIES ==>
               Entry(t, pid, x) == if x == VIRT_PAGES - 1 then Word(f, PWU) else Entry(s3, pid, x)
    requires t.procs[pid].state.Runnable? && t.procs[pid].regs.eip == prog.entry && UserMode(t.procs[pid].regs)
    requires t.procs[pid].regs.esp == VIRT_PAGES * PAGESIZE
    ensures ReadyToStart(t, pid, prog, u.mem)
  {
    hide LoadedPage;
    forall i | 0 <= i < |prog.segments| ensures Holds(t, pid, prog.segments[i], u.mem) {
      var seg := prog.segments[i];
      assert Holds(s3, pid, seg, u.mem) && PROC_PAGES <= seg.First();
      forall x | InSegment(seg, x) ensures HoldsPage(t, pid, seg, x, u.mem) {
        assert HoldsPage(s3, pid, seg, x, u.mem);
      }
    }
  }

  // ---------------------------------------------------------------- what the programs see

  /**
   * Process p is about to run prog, in user mode: it starts at the entry point with its stack pointer at the end
   * of virtual memory, sees every page of every segment as the segment has it, a writable page below its
   * stack pointer, and nothing else in process memory; memory below is mapped to itself for the kernel only,
   * the console page for user code too. `was` is what memory held before.
   */
  ghost predicate Starts(s: KState, p: nat, prog: Program, was: seq<Page>) {
    && 1 <= p < NPROC && s.procs[p].state.Runnable? && |was| == NPAGES
    && s.procs[p].regs.eip == prog.entry && s.procs[p].regs.esp == VIRT_PAGES * PAGESIZE && UserMode(s.procs[p].regs)
    && (forall i, v :: 0 <= i < |prog.segments| && InSegment(prog.segments[i], v) ==>
          SeesImage(s, p, prog.segments[i], v, was))
    && (var stack := Sees(s, p, VIRT_PAGES - 1); stack.Visible? && stack.w && stack.u)
    && (forall v :: PROC_PAGES <= v < L1_PAGES && v != VIRT_PAGES - 1 && !InSegments(prog.segments, v) ==>
          Sees(s, p, v) == Nothing)
    && LowMemory(s, p)
  }

  /** Process p maps memory below PROC_START_ADDR to itself, the console page alone for user code. */
  ghost predicate LowMemory(s: KState, p: nat)
    requires p < NPROC
  {
    forall v :: 0 <= v < PROC_PAGES ==>
      Walk(s.mem, s.procs[p].pagetable, v) == Word(v, Perm(true, true, v == CONSOLE, 0))
  }

  /**
   * Page v of the segment is the process's, writable if the segment is. Its words up to the end of the part
   * in the file are those of the file from the segment's first page on, the words behind up to the
   * segment's end are zero, and the rest of the last page is what it was.
   */
  ghost predicate SeesImage(s: KState, p: nat, seg: Segment, v: nat, was: seq<Page>)
    requires p < NPROC && InSegment(seg, v) && |was| == NPAGES
  {
    && v < NPAGES && Sees(s, p, v).Visible? && Sees(s, p, v).u && Sees(s, p, v).w == seg.writable
    && forall i :: 0 <= i < NENTRIES ==>
         var a := v * NENTRIES + i;
         Sees(s, p, v).page[i] ==
         if a < seg.va + seg.filesz then seg.src[a - seg.va + seg.Offset()]
         else if a < seg.va + seg.memsz then ABSENT else was[v][i]
  }

  lemma LoadedPageIs(seg: Segment, v: nat, was: Page)
    requires InSegment(seg, v)
    ensures forall i :: 0 <= i < NENTRIES ==>
      var a := v * NENTRIES + i;
      0 <= a - seg.va + seg.Offset() && LoadedPage(seg, v, was)[i] ==
        if a < seg.va + seg.filesz then seg.src[a - seg.va + seg.Offset()]
        else if a < seg.va + seg.memsz then ABSENT else was[i]
  {
    assert seg.va == seg.First() * NENTRIES + seg.Offset();
  }

  lemma ReadyStarts(s: KState, p: nat, prog: Program, was: seq<Page>)
    requires ReadyToStart(s, p, prog, was) && ProgramOk(prog) && |was| == NPAGES
    ensures Starts(s, p, prog, was)
  {
    hide Walk, LoadedPage;
    forall i, v | 0 <= i < |prog.segments| && InSegment(prog.segments[i], v)
      ensures SeesImage(s, p, prog.segments[i], v, was)
    {
      assert Holds(s, p, prog.segments[i], was) && HoldsPage(s, p, prog.segments[i], v, was);
      WalkIsEntry(s, p, v);
      LoadedPageIs(prog.segments[i], v, was[v]);
    }
    WalkIsEntry(s, p, VIRT_PAGES - 1);
    forall v | PROC_PAGES <= v < L1_PAGES && v != VIRT_PAGES - 1 && !InSegments(prog.segments, v)
      ensures Sees(s, p, v) == Nothing
    {
      WalkIsEntry(s, p, v);
    }
    forall v | 0 <= v < PROC_PAGES
      ensures Walk(s.mem, s.procs[p].pagetable, v) == Word(v, Perm(true, true, v == CONSOLE, 0))
    {
      NotInSegments(prog, v);
      WalkIsEntry(s, p, v);
    }
  }

  lemma NotInSegments(prog: Program, v: int)
    requires ProgramOk(prog) && v < PROC_PAGES
    ensures !InSegments(prog.segments, v)
  {}

  /** At word address a of the segment, process p finds the file's word `shift` words further on, or zero behind. */
  ghost predicate Finds(s: KState, p: nat, seg: Segment, a: nat, shift: nat)
    requires p < NPROC && seg.va <= a < seg.va + seg.memsz && shift <= seg.Offset()
  {
    && a / NENTRIES < L1_PAGES && Sees(s, p, a / NENTRIES).Visible?
    && Sees(s, p, a / NENTRIES).page[a % NENTRIES] ==
       if a < seg.va + seg.filesz then seg.src[a - seg.va + shift] else ABSENT
  }

  /** Process p finds the segment where the file says. */
  ghost predicate AsLinked(s: KState, p: nat, seg: Segment)
    requires p < NPROC
  {
    forall a :: seg.va <= a < seg.va + seg.memsz ==> Finds(s, p, seg, a, 0)
  }

  /**
   * It does exactly if the segment begins with a page, or what the file has there repeats itself as far on
   * as the segment begins in its page: the loader copies to the beginning of the page.
   */
  lemma LinkedExactly(s: KState, p: nat, prog: Program, was: seq<Page>, i: nat)
    requires Starts(s, p, prog, was) && i < |prog.segments|
    ensures var seg := prog.segments[i];
      AsLinked(s, p, seg) <==> forall k :: 0 <= k < seg.filesz ==> seg.src[seg.Offset() + k] == seg.src[k]
    ensures prog.segments[i].Offset() == 0 ==> AsLinked(s, p, prog.segments[i])
  {
    hide Sees, LowMemory, UserMode;
    var seg := prog.segments[i];
    forall a | seg.va <= a < seg.va + seg.memsz ensures Finds(s, p, seg, a, seg.Offset()) {
      assert InSegment(seg, a / NENTRIES) && SeesImage(s, p, seg, a / NENTRIES, was);
    }
    if AsLinked(s, p, seg) {
      forall k | 0 <= k < seg.filesz ensures seg.src[seg.Offset() + k] == seg.src[k] {
        assert Finds(s, p, seg, seg.va + k, 0) && Finds(s, p, seg, seg.va + k, seg.Offset());
      }
    }
    if forall k :: 0 <= k < seg.filesz ==> seg.src[seg.Offset() + k] == seg.src[k] {
      forall a | seg.va <= a < seg.va + seg.memsz ensures Finds(s, p, seg, a, 0) {
        assert Finds(s, p, seg, a, seg.Offset());
        assert a < seg.va + seg.filesz ==> seg.src[seg.Offset() + (a - seg.va)] == seg.src[a - seg.va];
      }
    }
  }

  /** For one, a segment of a word that does not begin with a page, behind another word. */
  lemma Misplaced(s: KState, p: nat, prog: Program, was: seq<Page>, w: Word, x: Word)
    requires Starts(s, p, prog, was) && w != x && |prog.segments| >= 1
    requires prog.segments[0] == ElfSegment(PROC_PAGES * NENTRIES + 1, [w, x], 1, 1, false)
    ensures !AsLinked(s, p, prog.segments[0])
  {
    LinkedExactly(s, p, prog, was, 0);
    var seg := prog.segments[0];
    assert seg.src[seg.Offset() + 0] == x && seg.src[0] == w;
  }

  /**
   * After a successful process_setup its program is ready to start; no page that was in use changed hands
   * or contents, and no other process changed.
   */
  lemma SetupLoads(at: Layout, s: KState, pid: nat, prog: Program, loaded: set<nat>)
    requires Inv(s) && Sharing(s, Live(s), Live(s), loaded) && Anchored(at, s)
    requires 1 <= pid < NPROC && pid !in Live(s) && ProgramOk(prog)
    ensures var r := ProcessSetup(s, pid, prog);
      r.Done? && r.ret == 0 ==> Starts(r.state, pid, prog, s.mem) && InUseKept(s, r.state, pid)
  {
    hide Core, Sharing, ProcessSetup, Live, Firm, ReadyToStart, InUseKept, Starts, Fresh;
    SetupPrepares(at, s, pid, prog, loaded);
    var r := ProcessSetup(s, pid, prog);
    if r.Done? && r.ret == 0 {
      ReadyStarts(r.state, pid, prog, s.mem);
    }
  }

  /** Free pages of process memory hold what they held at power-on. */
  ghost predicate PowerOn(h: History, s: KState)
    requires h.Ok()
  {
    forall f :: PROC_PAGES <= f < NPAGES && s.pageinfo[f].owner == PO_FREE ==> s.mem[f] == h.ram[f]
  }

  lemma {:induction false} BootsPrepare(h: History, boots: seq<KState>, k: nat)
    requires h.Ok() && k <= |h.programs| && SetUpTo(h, boots, k)
    ensures forall j :: 0 <= j < k ==> ReadyToStart(boots[k], j + 1, h.programs[j], h.ram)
    ensures PowerOn(h, boots[k])
  {
    hide Inv, Sharing, ProcessSetup, Live, Anchored, ReadyToStart, InUseKept, Fresh;
    if k > 0 {
      hide InitialState, PowerOn;
      BootsPrepare(h, boots, k - 1);
      BootsInv(h, boots, k - 1);
      assert SetsUp(h, boots, k - 1);
      var s, t, prog := boots[k - 1], boots[k], h.programs[k - 1];
      SetupPrepares(h.at, s, k, prog, UpTo(k));
      ReadySame(t, k, prog, s.mem, h.ram) by { FreshUntouched(h, s, t, prog); }
      FreshUntouched(h, s, t, prog);
      forall j | 0 <= j < k ensures ReadyToStart(t, j + 1, h.programs[j], h.ram) {
        if j < k - 1 {
          StaysReady(s, t, k, j + 1, h.programs[j], h.ram);
        }
      }
    }
  }

  lemma FreshUntouched(h: History, s: KState, t: KState, prog: Program)
    requires h.Ok() && PowerOn(h, s) && Fresh(s, t, prog.segments) && ProgramOk(prog)
    ensures PowerOn(h, t)
    ensures forall f :: 0 <= f < NPAGES && InSegments(prog.segments, f) ==> h.ram[f] == s.mem[f]
  {
    SegmentsHigh(prog);
  }

  /** After a successful boot every program is ready to start, in the process of its own number, and process 1 runs. */
  lemma BootLoads(h: History, s: KState, k: nat)
    requires Reached(h, s) && h.events == [] && k < |h.programs|
    ensures Starts(s, k + 1, h.programs[k], h.ram) && s.current == 1
  {
    hide ReadyToStart, Starts, SetsUp, Advances;
    var path :| Execution(h, path) && path[|h.events|] == s;
    var boots :| Boots(h, boots, s);
    BootsPrepare(h, boots, |h.programs|);
    ReadyStarts(boots[|h.programs|], k + 1, h.programs[k], h.ram);
    CurrentUnseen(boots[|h.programs|], s, k + 1, h.programs[k], h.ram);
  }

  lemma CurrentUnseen(s: KState, t: KState, p: nat, prog: Program, was: seq<Page>)
    requires Starts(s, p, prog, was) && t == s.(current := t.current)
    ensures Starts(t, p, prog, was)
  {
    assert forall v :: 0 <= v < L1_PAGES ==> Sees(t, p, v) == Sees(s, p, v);
    forall i, v | 0 <= i < |prog.segments| && InSegment(prog.segments[i], v)
      ensures SeesImage(t, p, prog.segments[i], v, was)
    {
      assert SeesImage(s, p, prog.segments[i], v, was);
    }
  }
}
