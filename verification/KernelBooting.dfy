/**
 * Exactly which programs boot: their segments lie in free physical memory and do not overlap
 * (pset6/kernel.c:83-113, 182-201; pset6/k-loader.c:45-99).
 */
module KernelBooting {
  import opened Machine
  import opened Paging
  import opened KernelSpec
  import opened KernelInvariant
  import opened KernelFork
  import opened KernelMemory
  import opened KernelAnchors
  import opened KernelSteps
  import opened KernelSharing
  import opened KernelBoot
  import opened KernelRuns
  import opened KernelStart
  import opened KernelLoading

  ghost predicate SegmentFits(s: KState, seg: Segment) {
    forall v :: InSegment(seg, v) ==> 0 <= v < NPAGES && s.pageinfo[v].owner == PO_FREE
  }

  /** The segments lie in free pages, and no two in the same. */
  ghost predicate Fit(s: KState, segs: seq<Segment>) {
    && (forall i :: 0 <= i < |segs| ==> SegmentFits(s, segs[i]))
    && forall i, j :: 0 <= i < j < |segs| ==> Disjoint(segs[i], segs[j])
  }

  ghost predicate Disjoint(a: Segment, b: Segment) { forall v :: !(InSegment(a, v) && InSegment(b, v)) }

  // ---------------------------------------------------------------- one segment

  lemma {:induction false} AllocSegmentSucceeds(at: Layout, s: KState, live: set<nat>, pid: nat, loaded: set<nat>,
      v: nat, end: nat)
    requires Building(at, s, live, pid, loaded) && pid < NPROC && PROC_PAGES <= v <= end <= NPAGES && AllFree(s, v, end)
    ensures AllocSegment(s, pid, v, end).Done? && AllocSegment(s, pid, v, end).ret == 0
    decreases end - v
  {
    if v < end {
      hide Building, MapPage;
      FreeIsZero(at, s, live, pid, loaded, v);
      TakePage(at, s, live, pid, loaded, v, v);
      AllocSegmentSucceeds(at, MapPage(Grab(s, v, pid), pid, v * PAGESIZE, v * PAGESIZE, PWU).state, live, pid, loaded,
        v + 1, end);
    }
  }

  lemma FreeIsZero(at: Layout, s: KState, live: set<nat>, pid: nat, loaded: set<nat>, f: nat)
    requires Building(at, s, live, pid, loaded) && f < NPAGES && s.pageinfo[f].owner == PO_FREE
    ensures s.pageinfo[f].refcount == 0
  {
    assert PageOk(s.pageinfo[f], live);
  }

  lemma LoadSegmentSucceeds(at: Layout, s: KState, live: set<nat>, pid: nat, loaded: set<nat>, seg: Segment)
    requires Building(at, s, live, pid, loaded) && pid < NPROC && PROC_PAGES <= seg.First()
    ensures var r := LoadSegment(s, pid, seg); r.Done? && r.ret == 0 <==> SegmentFits(s, seg)
  {
    hide Building, AllocSegment, Downgrade, CopyImage, Identity, Changed, Took;
    var first, end := seg.First(), seg.End();
    LoadSegmentHolds(at, s, live, pid, loaded, seg);
    var r := LoadSegment(s, pid, seg);
    if r.Done? && r.ret == 0 && first < end {
      forall v | InSegment(seg, v) ensures v < NPAGES && s.pageinfo[v].owner == PO_FREE {
        assert HoldsPage(r.state, pid, seg, v, s.mem);
      }
    }
    if SegmentFits(s, seg) && first < end {
      assert InSegment(seg, end - 1);
      AllocSegmentSucceeds(at, s, live, pid, loaded, first, end);
      AllocSegmentBuilds(at, s, live, pid, loaded, first, end);
      var t := AllocSegment(s, pid, first, end).state;
      TookIdentity(s, t, pid, first, end);
      CopyImageBuilds(at, t, live, pid, loaded, seg);
      if !seg.writable {
        DowngradeBuilds(at, t.(mem := CopyImage(t.mem, seg)), live, pid, loaded, first, end);
      }
    }
  }

  lemma TookIdentity(s: KState, t: KState, pid: nat, v: nat, end: nat)
    requires Took(s, t, pid, v, end)
    ensures Identity(t, pid, v, end)
  {}

  // ---------------------------------------------------------------- all segments

  lemma {:induction false} LoadSegmentsSucceed(at: Layout, s: KState, live: set<nat>, pid: nat, loaded: set<nat>,
      segs: seq<Segment>)
    requires Building(at, s, live, pid, loaded) && pid < NPROC
    requires forall i :: 0 <= i < |segs| ==> PROC_PAGES <= segs[i].First()
    ensures var r := LoadSegments(s, pid, segs); r.Done? && r.ret == 0 <==> Fit(s, segs)
    decreases |segs|
  {
    hide Building, LoadSegment, Loaded, Changed, Holds, SegmentFits, Disjoint;
    if segs != [] {
      LoadSegmentSucceeds(at, s, live, pid, loaded, segs[0]);
      LoadSegmentBuilds(at, s, live, pid, loaded, segs[0]);
      LoadSegmentHolds(at, s, live, pid, loaded, segs[0]);
      BuildingTable(at, s, live, pid, loaded);
      var r := LoadSegment(s, pid, segs[0]);
      if r.Done? && r.ret == 0 {
        FirstLoaded(s, pid, segs[0]);
        LoadSegmentsSucceed(at, r.state, live, pid, loaded, segs[1..]);
        FitRest(s, r.state, pid, segs);
      } else {
        assert !SegmentFits(s, segs[0]);
      }
    }
  }

  /** With the first segment loaded, the others fit if they did before and do not overlap it. */
  lemma FitRest(s: KState, u: KState, pid: nat, segs: seq<Segment>)
    requires segs != [] && SegmentFits(s, segs[0]) && Loaded(s, u, pid, [segs[0]])
    ensures Fit(u, segs[1..]) <==> Fit(s, segs)
  {
    forall i | 1 <= i < |segs|
      ensures SegmentFits(u, segs[1..][i - 1]) <==> SegmentFits(s, segs[i]) && Disjoint(segs[0], segs[i])
    {
      FitNext(s, u, pid, segs[0], segs[i]);
    }
    hide Loaded, SegmentFits, Disjoint;
    if Fit(u, segs[1..]) {
      forall i, j | 0 <= i < j < |segs| ensures Disjoint(segs[i], segs[j]) && SegmentFits(s, segs[j]) {
        assert SegmentFits(u, segs[1..][j - 1]);
        assert i > 0 ==> Disjoint(segs[1..][i - 1], segs[1..][j - 1]);
      }
      forall i | 0 <= i < |segs| ensures SegmentFits(s, segs[i]) {
        assert i > 0 ==> SegmentFits(u, segs[1..][i - 1]);
      }
    }
    if Fit(s, segs) {
      forall i | 0 <= i < |segs[1..]| ensures SegmentFits(u, segs[1..][i]) {
        assert SegmentFits(s, segs[i + 1]) && Disjoint(segs[0], segs[i + 1]);
      }
    }
  }

  lemma FitNext(s: KState, u: KState, pid: nat, first: Segment, seg: Segment)
    requires SegmentFits(s, first) && Loaded(s, u, pid, [first])
    ensures SegmentFits(u, seg) <==> SegmentFits(s, seg) && Disjoint(first, seg)
  {
    assert [first][0] == first && Holds(u, pid, first, s.mem);
    forall v | InSegment(first, v) ensures 0 <= v < NPAGES && u.pageinfo[v].owner == pid && pid > 0 {
      assert HoldsPage(u, pid, first, v, s.mem);
    }
    forall v | !InSegment(first, v) && 0 <= v < NPAGES ensures u.pageinfo[v] == s.pageinfo[v] {
      assert !InSegments([first], v);
    }
  }

  // ---------------------------------------------------------------- process_setup

  lemma LowFrame(pi: seq<PageInfo>)
    requires |pi| == NPAGES && FreeFrames(pi, PROC_PAGES) >= 1
    ensures 0 <= FirstFree(pi, 0, NPAGES) < PROC_PAGES
  {
    NoneFree(pi, PROC_PAGES);
  }

  /** The pages of process memory free in t are those free in s and in no segment. */
  ghost predicate TakenBy(s: KState, t: KState, segs: seq<Segment>) {
    forall f :: PROC_PAGES <= f < NPAGES ==>
      (t.pageinfo[f].owner == PO_FREE <==> s.pageinfo[f].owner == PO_FREE && !InSegments(segs, f))
  }

  /** The stack page comes from below PROC_START_ADDR. */
  lemma StackSucceeds(at: Layout, s: KState, u: KState, s3: KState, pid: nat, live: set<nat>, loaded: set<nat>,
      prog: Program)
    requires Inv(s) && 1 <= pid < NPROC && live == Live(s) + {pid} && Building(at, s3, live, pid, loaded)
    requires s3.procs == s.procs[pid := s3.procs[pid]] && s3.procs[pid].pid == pid && s3.current == s.current
    requires Loaded(u, s3, pid, prog.segments) && FreeFrames(s3.pageinfo, PROC_PAGES) >= 1
    requires forall f :: PROC_PAGES <= f < NPAGES ==> u.pageinfo[f] == s.pageinfo[f]
    ensures var r := SetupEnd(s3, pid, prog.entry); r.Done? && r.ret == 0 && TakenBy(s, r.state, prog.segments)
  {
    hide Core, Sharing, MapPage, Building, Firm, Loaded, Live;
    SetupFinish(at, s, s3, pid, live, loaded, prog.entry);
    LowFrame(s3.pageinfo);
    var f := FirstFree(s3.pageinfo, 0, NPAGES);
    FreeIsZero(at, s3, live, pid, loaded, f);
    var s4: KState := s3.(procs := s3.procs[pid := s3.procs[pid].(regs :=
                        s3.procs[pid].regs.(eip := prog.entry, esp := VIRT_PAGES * PAGESIZE))]);
    StackMapped(Grab(s4, f, pid), pid, f);
    LoadedTakes(u, s3, pid, prog.segments);
  }

  lemma LoadedTakes(s: KState, t: KState, pid: nat, segs: seq<Segment>)
    requires Loaded(s, t, pid, segs)
    ensures TakenBy(s, t, segs)
  {
    forall f | PROC_PAGES <= f < NPAGES && InSegments(segs, f) ensures t.pageinfo[f].owner == pid && pid > 0 {
      var i :| 0 <= i < |segs| && InSegment(segs[i], f);
      assert Holds(t, pid, segs[i], s.mem) && HoldsPage(t, pid, segs[i], f, s.mem);
    }
  }

  /** Among programs in process memory, only the pages there matter. */
  lemma FitSame(s: KState, t: KState, prog: Program)
    requires ProgramOk(prog) && forall f :: PROC_PAGES <= f < NPAGES ==> t.pageinfo[f] == s.pageinfo[f]
    ensures Fit(s, prog.segments) <==> Fit(t, prog.segments)
  {
    forall i | 0 <= i < |prog.segments|
      ensures SegmentFits(s, prog.segments[i]) <==> SegmentFits(t, prog.segments[i])
    {
      assert PROC_PAGES <= prog.segments[i].First();
    }
  }

  /** With three frames free below PROC_START_ADDR, process_setup succeeds exactly if the program's segments fit. */
  lemma SetupSucceeds(at: Layout, s: KState, pid: nat, prog: Program, loaded: set<nat>)
    requires Inv(s) && Sharing(s, Live(s), Live(s), loaded) && Anchored(at, s)
    requires 1 <= pid < NPROC && pid !in Live(s) && ProgramOk(prog) && FreeFrames(s.pageinfo, PROC_PAGES) >= 3
    ensures var r := ProcessSetup(s, pid, prog);
      && (r.Done? && r.ret == 0 <==> Fit(s, prog.segments))
      && (Fit(s, prog.segments) ==> TakenBy(s, r.state, prog.segments))
  {
    hide Core, Sharing, LoadSegments, CopyPagetable, Building, SetupEnd, Live, Firm, Loaded, Fit, FreeFrames, TakenBy;
    var s1 := s.(procs := s.procs[pid := s.procs[pid].(regs := INITIAL_REGISTERS)]);
    SetupStart(s, pid, s1);
    var (s2, pt) := CopyPagetable(s1, pid);
    SetPagetableKeeps(s2, pid, pt);
    SetupTables(at, s, pid, loaded, s1, s2, pt);
    var u := SetPagetable(s2, pid, pt);
    var live, all := Live(s) + {pid}, loaded + {pid};
    FitSame(s, u, prog);
    LoadSegmentsSucceed(at, u, live, pid, all, prog.segments);
    LoadSegmentsBuild(at, u, live, pid, all, prog.segments);
    LoadSegmentsHold(at, u, live, pid, all, prog.segments);
    LoadSegmentsLow(u, pid, prog.segments);
    if Fit(s, prog.segments) {
      var s3 := LoadSegments(u, pid, prog.segments).state;
      FreeSame(u.pageinfo, s3.pageinfo, PROC_PAGES);
      StackSucceeds(at, s, u, s3, pid, live, all, prog);
    }
  }

  // ---------------------------------------------------------------- the whole boot

  /** Page f is in a segment of one of the first k programs. */
  ghost predicate Taken(programs: seq<Program>, k: nat, f: int)
    requires k <= |programs|
  {
    exists j :: 0 <= j < k && InSegments(programs[j].segments, f)
  }

  /**
   * The segments of program k lie behind the kernel's image in physical memory, and overlap neither one
   * another nor those of earlier programs.
   */
  ghost predicate ProgramFits(at: Layout, programs: seq<Program>, k: nat)
    requires k < |programs|
  {
    var segs := programs[k].segments;
    && (forall v :: InSegments(segs, v) ==> at.kend <= v < NPAGES && !Taken(programs, k, v))
    && forall i, j :: 0 <= i < j < |segs| ==> Disjoint(segs[i], segs[j])
  }

  /** In s, the pages of process memory are free that no segment of the first k programs has. */
  ghost predicate FreeBehind(at: Layout, programs: seq<Program>, k: nat, s: KState)
    requires k <= |programs|
  {
    forall f :: PROC_PAGES <= f < NPAGES ==>
      (s.pageinfo[f].owner == PO_FREE <==> at.kend <= f && !Taken(programs, k, f))
  }

  lemma FitMeans(at: Layout, programs: seq<Program>, k: nat, s: KState)
    requires k < |programs| && FreeBehind(at, programs, k, s) && ProgramOk(programs[k])
    ensures Fit(s, programs[k].segments) <==> ProgramFits(at, programs, k)
  {
    hide Disjoint, Taken;
    var segs := programs[k].segments;
    if Fit(s, segs) {
      forall v | InSegments(segs, v) ensures at.kend <= v < NPAGES && !Taken(programs, k, v) {
        var i :| 0 <= i < |segs| && InSegment(segs[i], v);
        assert SegmentFits(s, segs[i]) && PROC_PAGES <= segs[i].First();
      }
    }
    if ProgramFits(at, programs, k) {
      forall i | 0 <= i < |segs| ensures SegmentFits(s, segs[i]) {
        forall v | InSegment(segs[i], v) ensures 0 <= v < NPAGES && s.pageinfo[v].owner == PO_FREE {
          assert InSegments(segs, v) && PROC_PAGES <= segs[i].First();
        }
      }
    }
  }

  lemma FreeBehindNext(at: Layout, programs: seq<Program>, k: nat, s: KState, t: KState)
    requires k < |programs| && FreeBehind(at, programs, k, s) && TakenBy(s, t, programs[k].segments)
    ensures FreeBehind(at, programs, k + 1, t)
  {
    forall f ensures Taken(programs, k + 1, f) <==> Taken(programs, k, f) || InSegments(programs[k].segments, f) {
      hide InSegments;
    }
  }

  /** process_setup of the next program, in the state that the ones before leave. */
  lemma NextSetup(h: History, boots: seq<KState>, k: nat)
    requires h.Ok() && k < |h.programs| && SetUpTo(h, boots, k) && FreeBehind(h.at, h.programs, k, boots[k])
    ensures var r := ProcessSetup(boots[k], k + 1, h.programs[k]);
      && (r.Done? && r.ret == 0 <==> ProgramFits(h.at, h.programs, k))
      && (r.Done? && r.ret == 0 ==> FreeBehind(h.at, h.programs, k + 1, r.state))
  {
    hide Inv, Sharing, ProcessSetup, InitialState, Live, Anchored, FreeBehind, ProgramFits, TakenBy, Fit, FreeFrames;
    BootsInv(h, boots, k);
    SetUpFrames(h, boots, k);
    SetupSucceeds(h.at, boots[k], k + 1, h.programs[k], UpTo(k + 1));
    FitMeans(h.at, h.programs, k, boots[k]);
    var r := ProcessSetup(boots[k], k + 1, h.programs[k]);
    if r.Done? && r.ret == 0 {
      FreeBehindNext(h.at, h.programs, k, boots[k], r.state);
    }
  }

  lemma FirstBehind(h: History)
    requires h.Ok()
    ensures FreeBehind(h.at, h.programs, 0, InitialState(h.at, h.ram))
  {}

  /** The programs set up so far fit. */
  lemma {:induction false} SetUpFits(h: History, boots: seq<KState>, k: nat)
    requires h.Ok() && k <= |h.programs| && SetUpTo(h, boots, k)
    ensures FreeBehind(h.at, h.programs, k, boots[k]) && forall j :: 0 <= j < k ==> ProgramFits(h.at, h.programs, j)
  {
    hide ProcessSetup, InitialState, FreeBehind, ProgramFits;
    if k == 0 {
      FirstBehind(h);
    } else {
      SetUpFits(h, boots, k - 1);
      assert SetsUp(h, boots, k - 1);
      NextSetup(h, boots, k - 1);
    }
  }

  /** Programs that fit can be set up. */
  lemma {:induction false} FittingSetsUp(h: History, k: nat) returns (boots: seq<KState>)
    requires h.Ok() && k <= |h.programs| && forall j :: 0 <= j < k ==> ProgramFits(h.at, h.programs, j)
    ensures SetUpTo(h, boots, k) && FreeBehind(h.at, h.programs, k, boots[k])
  {
    hide ProcessSetup, InitialState, FreeBehind, ProgramFits;
    if k == 0 {
      FirstBehind(h);
      return seq(|h.programs| + 1, i => InitialState(h.at, h.ram));
    }
    var before := FittingSetsUp(h, k - 1);
    NextSetup(h, before, k - 1);
    var r := ProcessSetup(before[k - 1], k, h.programs[k - 1]);
    SetUpNext(h, before, k - 1, r.state);
    boots := before[k := r.state];
  }

  /**
   * A machine boots exactly the programs whose segments lie behind the kernel's image in physical memory
   * and do not overlap.
   */
  lemma BootsExactly(h: History)
    requires h.Ok() && h.events == []
    ensures (exists s :: Reached(h, s)) <==> forall k :: 0 <= k < |h.programs| ==> ProgramFits(h.at, h.programs, k)
  {
    hide ProcessSetup, InitialState, FreeBehind, ProgramFits, SetsUp, ReadyToStart, Reached;
    forall s | Reached(h, s) ensures forall k :: 0 <= k < |h.programs| ==> ProgramFits(h.at, h.programs, k) {
      var boots := BootOf(h, s);
      SetUpFits(h, boots, |h.programs|);
    }
    if forall k :: 0 <= k < |h.programs| ==> ProgramFits(h.at, h.programs, k) {
      var boots := FittingSetsUp(h, |h.programs|);
      BootsPrepare(h, boots, |h.programs|);
      FirstRuns(boots[|h.programs|], h.programs[0], h.ram);
      Begins(h, boots, boots[|h.programs|].(current := 1));
    }
  }

  lemma BootOf(h: History, s: KState) returns (boots: seq<KState>)
    requires Reached(h, s)
    ensures h.Ok() && SetUpTo(h, boots, |h.programs|)
  {
    hide SetsUp, Advances;
    var path :| Execution(h, path) && path[|h.events|] == s;
    boots :| Boots(h, boots, path[0]);
  }

  lemma FirstRuns(s: KState, prog: Program, was: seq<Page>)
    requires ReadyToStart(s, 0 + 1, prog, was)
    ensures s.procs[1].state.Runnable?
  {}
}
