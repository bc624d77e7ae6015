/**
 * Booting does not fail for want of page tables: kernel() sets up at most 15 processes, and each takes
 * three frames below PROC_START_ADDR at the most (pset6/kernel.c:83-113, 182-201).
 */
module KernelStart {
  import opened Machine
  import opened Paging
  import opened KernelSpec
  import opened KernelInvariant
  import opened KernelFork
  import opened KernelMemory
  import opened KernelCounts
  import opened KernelAnchors
  import opened KernelSteps
  import opened KernelSharing
  import opened KernelBoot
  import opened KernelRuns

  /** Frames 1 to 0x3F are free at the start. */
  lemma InitialFrames(at: Layout, ram: seq<Page>)
    requires |ram| == NPAGES
    ensures FreeFrames(InitialState(at, ram).pageinfo, PROC_PAGES) >= 63
  {
    var pi := InitialState(at, ram).pageinfo;
    FreeRow(pi, 64);
    LowFree(pi, 64, PROC_PAGES);
  }

  lemma {:induction false} FreeRow(pi: seq<PageInfo>, k: nat)
    requires 1 <= k <= |pi| && forall f :: 1 <= f < k ==> pi[f].owner == PO_FREE
    ensures FreeFrames(pi, k) >= k - 1
  {
    if k > 1 {
      FreeRow(pi, k - 1);
    }
  }

  /** An allocation anywhere takes at most one frame below a limit. */
  lemma AllocOne(s: KState, owner: nat, limit: nat)
    requires owner != PO_FREE && limit <= NPAGES
    ensures FreeFrames(AllocFree(s, NPAGES, owner).0.pageinfo, limit) + 1 >= FreeFrames(s.pageinfo, limit)
    ensures -1 <= AllocFree(s, NPAGES, owner).1 < NPAGES
  {
    var f := FirstFree(s.pageinfo, 0, NPAGES);
    if f != -1 {
      FreeUpdate(s.pageinfo, f, PageInfo(owner, 1), limit);
    }
  }

  /** Loading a program takes no frame below PROC_START_ADDR. */
  ghost predicate SameLow(s: KState, t: KState) {
    forall f :: 0 <= f < PROC_PAGES ==> t.pageinfo[f] == s.pageinfo[f]
  }

  lemma {:induction false} AllocSegmentLow(s: KState, pid: nat, v: nat, end: nat)
    requires pid < NPROC && PROC_PAGES <= v <= end
    ensures var r := AllocSegment(s, pid, v, end); r.Done? ==> SameLow(s, r.state)
    decreases end - v
  {
    if v < end && v < NPAGES && s.pageinfo[v].refcount == 0 {
      var r := MapPage(Grab(s, v, pid), pid, v * PAGESIZE, v * PAGESIZE, PWU);
      if r.Done? {
        MapKeepsPages(Grab(s, v, pid), pid, v * PAGESIZE, v * PAGESIZE, PWU);
        AllocSegmentLow(r.state, pid, v + 1, end);
      }
    }
  }

  lemma {:induction false} DowngradeLow(s: KState, pid: nat, v: nat, end: nat)
    requires pid < NPROC && v <= end <= NPAGES
    ensures var r := Downgrade(s, pid, v, end); r.Done? ==> SameLow(s, r.state)
    decreases end - v
  {
    hide MapPage, Walk;
    if v < end {
      var e := Walk(s.mem, s.procs[pid].pagetable, v);
      var r := MapPage(s, pid, v * PAGESIZE, e.frame * PAGESIZE, PU);
      if e.perm.p && r.Done? {
        MapKeepsPages(s, pid, v * PAGESIZE, e.frame * PAGESIZE, PU);
        DowngradeLow(r.state, pid, v + 1, end);
      }
    }
  }

  lemma {:induction false} LoadSegmentsLow(s: KState, pid: nat, segs: seq<Segment>)
    requires pid < NPROC && forall i :: 0 <= i < |segs| ==> PROC_PAGES <= segs[i].First()
    ensures var r := LoadSegments(s, pid, segs); !r.Idle? && (r.Done? ==> SameLow(s, r.state))
    decreases |segs|
  {
    if segs != [] {
      LoadSegmentLow(s, pid, segs[0]);
      var r := LoadSegment(s, pid, segs[0]);
      if r.Done? && r.ret == 0 {
        LoadSegmentsLow(r.state, pid, segs[1..]);
      }
    }
  }

  lemma LoadSegmentLow(s: KState, pid: nat, seg: Segment)
    requires pid < NPROC && PROC_PAGES <= seg.First()
    ensures var r := LoadSegment(s, pid, seg); !r.Idle? && (r.Done? ==> SameLow(s, r.state))
  {
    var first, end := seg.First(), seg.End();
    if first < end {
      AllocSegmentLow(s, pid, first, end);
      NeverIdle(s, pid, first, end);
      var r := AllocSegment(s, pid, first, end);
      if r.Done? && r.ret == 0 && !seg.writable {
        var t: KState := r.state.(mem := CopyImage(r.state.mem, seg));
        DowngradeLow(t, pid, first, end);
        NeverIdle(t, pid, first, end);
      }
    }
  }

  lemma {:induction false} NeverIdle(s: KState, pid: nat, v: nat, end: nat)
    requires pid < NPROC && v <= end
    ensures !AllocSegment(s, pid, v, end).Idle? && (end <= NPAGES ==> !Downgrade(s, pid, v, end).Idle?)
    decreases end - v
  {
    if v < end && v < NPAGES {
      var r := MapPage(Grab(s, v, pid), pid, v * PAGESIZE, v * PAGESIZE, PWU);
      if r.Done? {
        NeverIdle(r.state, pid, v + 1, end);
      }
      var e := Walk(s.mem, s.procs[pid].pagetable, v);
      var q := MapPage(s, pid, v * PAGESIZE, e.frame * PAGESIZE, PU);
      if q.Done? {
        NeverIdle(q.state, pid, v + 1, end);
      }
    }
  }

  /**
   * With three frames free below PROC_START_ADDR, process_setup takes no more, and an assertion
   * fails or it succeeds.
   */
  lemma SetupFrames(s: KState, pid: nat, prog: Program)
    requires Inv(s) && 1 <= pid < NPROC && ProgramOk(prog) && FreeFrames(s.pageinfo, PROC_PAGES) >= 3
    ensures var r := ProcessSetup(s, pid, prog);
      || r.Panic?
      || (r.Done? && r.ret == 0
          && FreeFrames(r.state.pageinfo, PROC_PAGES) + 3 >= FreeFrames(s.pageinfo, PROC_PAGES))
  {
    hide Core, SameViews, LoadSegments, CopyPagetable, SetupEnd, FreeFrames, AllocFree, SetPagetable;
    var s1: KState := s.(procs := s.procs[pid := s.procs[pid].(regs := INITIAL_REGISTERS)]);
    SetupStart(s, pid, s1);
    var (s2, pt) := CopyPagetable(s1, pid);
    SetPagetableKeeps(s2, pid, pt);
    var u := SetPagetable(s2, pid, pt);
    LoadSegmentsLow(u, pid, prog.segments);
    var r := LoadSegments(u, pid, prog.segments);
    if r.Done? && r.ret == 0 {
      FreeSame(u.pageinfo, r.state.pageinfo, PROC_PAGES);
      SetupEndFrames(r.state, pid, prog.entry);
    }
  }

  lemma SetupEndFrames(s: KState, pid: nat, entry: nat)
    requires 1 <= pid < NPROC
    ensures var r := SetupEnd(s, pid, entry);
      || r.Panic?
      || (r.Done? && r.ret == 0
          && FreeFrames(r.state.pageinfo, PROC_PAGES) + 1 >= FreeFrames(s.pageinfo, PROC_PAGES))
  {
    hide MapPage, FreeFrames, AllocFree;
    var s4: KState := s.(procs := s.procs[pid := s.procs[pid].(regs :=
                        s.procs[pid].regs.(eip := entry, esp := VIRT_PAGES * PAGESIZE))]);
    AllocOne(s4, pid, PROC_PAGES);
    var (s5, f) := AllocFree(s4, NPAGES, pid);
    if f != -1 {
      StackMapped(s5, pid, f);
    }
  }

  lemma SetupStart(s: KState, pid: nat, s1: KState)
    requires Inv(s) && 1 <= pid < NPROC && FreeFrames(s.pageinfo, PROC_PAGES) >= 3
    requires s1 == s.(procs := s.procs[pid := s.procs[pid].(regs := INITIAL_REGISTERS)])
    ensures var (s2, pt) := CopyPagetable(s1, pid);
      && pt != -1 && 0 <= pt < NPAGES && FreeFrames(s2.pageinfo, PROC_PAGES) + 2 == FreeFrames(s.pageinfo, PROC_PAGES)
      && forall f :: PROC_PAGES <= f < NPAGES ==> s2.pageinfo[f] == s.pageinfo[f]
  {
    hide Core, SameViews, CopyPagetable, FreeFrames;
    var live := Live(s) + {pid};
    LiveGrows(s, Live(s), Live(s), pid);
    CoreBounds(s, Live(s), Live(s));
    ProcsKeep(s, live, Live(s), s1);
    TableFrames(s1, live, Live(s), pid);
    NewTableFrame(s1, pid);
  }

  lemma NewTableFrame(s: KState, pid: nat)
    ensures CopyPagetable(s, pid).1 < PROC_PAGES && CopyPagetable(s, pid).1 >= -1
  {}

  lemma StackMapped(s: KState, pid: nat, f: nat)
    requires pid < NPROC
    ensures var r := MapPage(s, pid, (VIRT_PAGES - 1) * PAGESIZE, f * PAGESIZE, PWU);
            !r.Idle? && (r.Done? ==> r.state.pageinfo == s.pageinfo)
  {}

  /** The next process_setup has memory for its page tables. */
  lemma {:induction false} SetUpFrames(h: History, boots: seq<KState>, k: nat)
    requires h.Ok() && k <= |h.programs| && SetUpTo(h, boots, k)
    ensures FreeFrames(boots[k].pageinfo, PROC_PAGES) + 3 * k >= 63
    ensures k < |h.programs| ==>
      var r := ProcessSetup(boots[k], k + 1, h.programs[k]); r.Panic? || (r.Done? && r.ret == 0)
  {
    hide ProcessSetup, InitialState, Inv, Live, Anchored, Sharing, FreeFrames;
    BootsInv(h, boots, k);
    if k == 0 {
      InitialFrames(h.at, h.ram);
    } else {
      SetUpFrames(h, boots, k - 1);
      BootsInv(h, boots, k - 1);
      assert SetsUp(h, boots, k - 1);
      SetupFrames(boots[k - 1], k, h.programs[k - 1]);
    }
    if k < |h.programs| {
      SetupFrames(boots[k], k + 1, h.programs[k]);
    }
  }
}
