/**
 * What a failed fork does to reference counts (pset6/kernel.c:222-282): sys_exit of the half-built
 * child decrements every shared page, also those the child had not come to share.
 */
module KernelCounts {
  import opened Machine
  import opened Paging
  import opened KernelSpec
  import opened KernelInvariant
  import opened KernelFork
  import opened KernelMemory

  /** Process memory page f is one the parent maps read-only, so that fork's loop shares it. */
  ghost predicate SharesAt(s: KState, f: nat)
    requires s.current < NPROC && TableOk(s, s.current)
  {
    PROC_PAGES <= f < NENTRIES && Entry(s, s.current, f).perm.p && !Entry(s, s.current, f).perm.w
  }

  /** One turn counts one more reference, for a page it shares. */
  lemma TurnCounts(s: KState, live: set<nat>, c: nat, v: nat) returns (u: KState)
    requires Midway(s, live, c, v) && v < VIRT_PAGES
    requires !(Entry(s, s.current, v).perm.p && Entry(s, s.current, v).perm.w && AllocFree(s, NPAGES, c).1 == -1)
    ensures Midway(u, live, c, v + 1) && Turn(s, u, live, c, v) && CopyRange(s, c, v) == CopyRange(u, c, v + 1)
    ensures TableOk(s, s.current)
    ensures Counted(s, u, c, v, v + 1)
    ensures FreeFrames(s.pageinfo, NPAGES) == FreeFrames(u.pageinfo, NPAGES) + if CopiesAt(s, v) then 1 else 0
  {
    hide Turn, Midway, TableOk, MapPage, FreeFrames, Counted;
    ParentEntry(s, live, c, v);
    var e := Walk(s.mem, s.procs[s.current].pagetable, v);
    if e.perm.p && e.perm.w {
      FrameTaken(s, live, c, v);
      var (s1, f) := AllocFree(s, NPAGES, c);
      CopyTurn(s, live, c, v, s1, f);
      u := CopyPage(s1, c, v, e.frame, f, e.perm).state;
      MapKeepsPages(s1.(mem := s1.mem[f := s1.mem[e.frame]]), c, v * PAGESIZE, f * PAGESIZE, e.perm);
      CopyCounted(s, u, c, v, f);
    } else if e.perm.p && Shareable(s.pageinfo, e.frame) {
      ShareTurn(s, live, c, v);
      u := SharePage(s, c, v, e.frame).state;
      var x := s.pageinfo[e.frame];
      var counted := s.pageinfo[e.frame := PageInfo(x.owner, x.refcount + 1)];
      FreeSame(s.pageinfo, counted, NPAGES);
      MapKeepsPages(s.(pageinfo := counted), c, v * PAGESIZE, e.frame * PAGESIZE, PU);
      ShareCounted(s, u, c, v);
    } else {
      SkipTurn(s, live, c, v);
      u := s;
      SkipCounted(s, live, c, v);
    }
  }

  lemma CopyCounted(s: KState, u: KState, c: nat, v: nat, f: nat)
    requires s.current < NPROC && TableOk(s, s.current) && v < NENTRIES && CopiesAt(s, v)
    requires f < NPAGES && s.pageinfo[f].owner == PO_FREE && u.pageinfo == s.pageinfo[f := PageInfo(c, 1)]
    ensures Counted(s, u, c, v, v + 1)
  {
    hide TableOk;
  }

  lemma ShareCounted(s: KState, u: KState, c: nat, v: nat)
    requires s.current < NPROC && TableOk(s, s.current) && PROC_PAGES <= v < NPAGES && SharesAt(s, v)
    requires s.pageinfo[v].owner > 0
    requires u.pageinfo == s.pageinfo[v := PageInfo(s.pageinfo[v].owner, s.pageinfo[v].refcount + 1)]
    ensures Counted(s, u, c, v, v + 1)
  {
    hide TableOk, SharesAt;
  }

  lemma SkipCounted(s: KState, live: set<nat>, c: nat, v: nat)
    requires s.current < NPROC && TableOk(s, s.current) && v < NENTRIES && !CopiesAt(s, v)
    requires forall f :: 0 <= f < NPAGES ==> PageOk(s.pageinfo[f], live)
    requires SharesAt(s, v) ==> Entry(s, s.current, v).frame == v && !Shareable(s.pageinfo, v)
    ensures Counted(s, s, c, v, v + 1)
  {
    hide TableOk;
    assert v < NPAGES ==> PageOk(s.pageinfo[v], live);
  }

  lemma FrameTaken(s: KState, live: set<nat>, c: nat, v: nat)
    requires Midway(s, live, c, v)
    ensures var (t, f) := AllocFree(s, NPAGES, c);
      && (f == -1 <==> FreeFrames(s.pageinfo, NPAGES) == 0)
      && FreeFrames(s.pageinfo, NPAGES) == FreeFrames(t.pageinfo, NPAGES) + if f == -1 then 0 else 1
  {
    AllocCounts(s, live, live, NPAGES, c, NPAGES);
  }

  lemma MapKeepsPages(s: KState, p: nat, va: nat, pa: nat, perm: Perm)
    requires p < NPROC && MapPage(s, p, va, pa, perm).Done?
    ensures MapPage(s, p, va, pa, perm).state.pageinfo == s.pageinfo
  {}

  /** From s to t, pages in use keep their owner, and those shared in [v, stop) count one more reference. */
  ghost predicate Counted(s: KState, t: KState, c: nat, v: nat, stop: nat)
    requires s.current < NPROC && TableOk(s, s.current)
  {
    forall f :: 0 <= f < NPAGES && s.pageinfo[f].owner !in {PO_FREE, c} ==>
      && t.pageinfo[f].owner == s.pageinfo[f].owner
      && t.pageinfo[f].refcount == s.pageinfo[f].refcount
           + (if v <= f < stop && s.pageinfo[f].owner > 0 && SharesAt(s, f) then 1 else 0)
  }

  /**
   * The loop stops where memory runs out, at a page given by the free frames and the parent's
   * mappings before, having counted one reference for each page it shared up to there.
   */
  lemma {:induction false} LoopCounts(s: KState, live: set<nat>, c: nat, v: nat)
    requires Midway(s, live, c, v) && v <= VIRT_PAGES && CopyRange(s, c, v).Done?
    ensures s.current < NPROC && TableOk(s, s.current)
    ensures var stop := StopPage(s, v, FreeFrames(s.pageinfo, NPAGES));
      && (CopyRange(s, c, v).ret == -1 <==> stop < VIRT_PAGES)
      && Counted(s, CopyRange(s, c, v).state, c, v, stop)
      && FreeFrames(s.pageinfo, NPAGES) == FreeFrames(CopyRange(s, c, v).state.pageinfo, NPAGES) + Copies(s, v, stop)
    decreases VIRT_PAGES - v
  {
    hide CopyRange, Midway, Turn, SharesAt, Counted, TableOk, FreeFrames, CopiesAt, StopsHere;
    MidwayFacts(s, live, c, v);
    if v == VIRT_PAGES || StopsHere(s, c, v) {
      LoopEndCounts(s, live, c, v);
    } else {
      GoesOn(s, live, c, v);
      var u := TurnCounts(s, live, c, v);
      MidwayLive(s, live, c, v);
      TurnViews(s, u, live, c, v);
      LoopCounts(u, live, c, v + 1);
      var free := FreeFrames(u.pageinfo, NPAGES);
      StopSame(s, u, v + 1, free);
      StopPageIs(s, v + 1, free);
      CopiesSame(s, u, v + 1, StopPage(s, v + 1, free));
      CountedStep(s, u, CopyRange(u, c, v + 1).state, c, v, StopPage(s, v + 1, free));
    }
  }

  lemma LoopEndCounts(s: KState, live: set<nat>, c: nat, v: nat)
    requires Midway(s, live, c, v) && v <= VIRT_PAGES && s.current < NPROC && TableOk(s, s.current)
    requires v == VIRT_PAGES || StopsHere(s, c, v)
    ensures CopyRange(s, c, v).Done? && Counted(s, CopyRange(s, c, v).state, c, v, v)
    ensures StopPage(s, v, FreeFrames(s.pageinfo, NPAGES)) == v && CopyRange(s, c, v).state.pageinfo == s.pageinfo
    ensures CopyRange(s, c, v).ret == -1 <==> v < VIRT_PAGES
  {
    hide Midway, SharesAt, TableOk, FreeFrames;
    if v < VIRT_PAGES {
      FrameTaken(s, live, c, v);
      LoopStops(s, live, c, v);
    }
  }

  lemma GoesOn(s: KState, live: set<nat>, c: nat, v: nat)
    requires Midway(s, live, c, v) && v < VIRT_PAGES && s.current < NPROC && TableOk(s, s.current)
    requires !StopsHere(s, c, v)
    ensures CopiesAt(s, v) ==> FreeFrames(s.pageinfo, NPAGES) > 0
    ensures !(Entry(s, s.current, v).perm.p && Entry(s, s.current, v).perm.w && AllocFree(s, NPAGES, c).1 == -1)
  {
    hide Midway, TableOk, FreeFrames;
    FrameTaken(s, live, c, v);
  }

  lemma MidwayPages(s: KState, live: set<nat>, c: nat, v: nat)
    requires Midway(s, live, c, v)
    ensures forall f :: 0 <= f < NPAGES ==> PageOk(s.pageinfo[f], live)
  {}

  lemma MidwayLive(s: KState, live: set<nat>, c: nat, v: nat)
    requires Midway(s, live, c, v)
    ensures s.current in live && s.current != c
  {}

  ghost predicate StopsHere(s: KState, c: nat, v: nat)
    requires s.current < NPROC && TableOk(s, s.current) && v < NENTRIES
  {
    Entry(s, s.current, v).perm.p && Entry(s, s.current, v).perm.w && AllocFree(s, NPAGES, c).1 == -1
  }

  lemma LoopStops(s: KState, live: set<nat>, c: nat, v: nat)
    requires Midway(s, live, c, v) && v < VIRT_PAGES && TableOk(s, s.current) && s.current < NPROC && StopsHere(s, c, v)
    ensures CopyRange(s, c, v) == Done(s, -1)
  {
    WalkIsEntry(s, s.current, v);
    assert EntryOk(s, s.current, v);
  }

  lemma CountedStep(s: KState, u: KState, t: KState, c: nat, v: nat, stop: nat)
    requires s.current < NPROC && u.current == s.current && TableOk(s, s.current) && TableOk(u, s.current) && v < stop
    requires Counted(s, u, c, v, v + 1) && Counted(u, t, c, v + 1, stop)
    requires forall x :: 0 <= x < NENTRIES ==> Entry(u, s.current, x) == Entry(s, s.current, x)
    ensures Counted(s, t, c, v, stop)
  {
    forall f | 0 <= f < NPAGES ensures SharesAt(u, f) == SharesAt(s, f) {}
  }

  lemma TurnViews(s: KState, u: KState, live: set<nat>, c: nat, v: nat)
    requires Turn(s, u, live, c, v) && s.current in live && s.current != c && s.current < NPROC
    ensures u.current == s.current && TableOk(s, s.current) && TableOk(u, s.current)
    ensures forall x :: 0 <= x < NENTRIES ==> Entry(u, s.current, x) == Entry(s, s.current, x)
  {
    assert SameView(s, u, s.current);
  }

  /** A page of some process, used more than once, that the loop had not come to share. */
  ghost predicate LosesReference(s: KState, f: nat, stop: nat)
    requires s.current < NPROC && TableOk(s, s.current) && f < NPAGES
  {
    s.pageinfo[f].owner > 0 && s.pageinfo[f].refcount > 1 && !(f < stop && SharesAt(s, f))
  }

  /**
   * The counts after a failed fork, exactly: sys_exit takes back the references the loop counted,
   * and one more of each process page used more than once that the loop had not shared. How far the
   * loop came is a matter of the free frames and the parent's mappings before.
   */
  lemma FailedForkCounts(s: KState)
    requires Inv(s) && s.current in Live(s) && FreeSlot(s.procs, 1) != -1 && Fork(s).Done? && Fork(s).ret == -1
    ensures TableOk(s, s.current)
    ensures forall f :: 0 <= f < NPAGES && s.pageinfo[f].owner != PO_FREE ==>
      && Fork(s).state.pageinfo[f].owner == s.pageinfo[f].owner
      && Fork(s).state.pageinfo[f].refcount == s.pageinfo[f].refcount -
           if LosesReference(s, f, ForkStops(s)) then 1 else 0
  {
    hide Core, SameViews, CopyRange, CopyPagetable, ForkRegisters, Live, Midway, Exit, Grown, Counted;
    hide TableOk, ForkStops;
    var slot := FreeSlot(s.procs, 1);
    var (s2, pt) := CopyPagetable(Claim(s, slot), slot);
    LiveSlot(s, slot);
    ForkStart(s, slot, s2, pt);
    ForkFrames(s, slot);
    if pt == -1 {
      GrownCounted(s, s2, slot);
      ExitCounts(s, s, s2, slot, PROC_PAGES);
    } else {
      var s3 := SetPagetable(s2, slot, pt);
      StartViews(s, s3);
      LoopCounts(s3, Live(s) + {slot}, slot, PROC_PAGES);
      StopsExactly(s);
      ExitCounts(s, s3, CopyRange(s3, slot, PROC_PAGES).state, slot, ForkStops(s));
    }
  }

  /** Where the loop stops, from the state before fork. */
  lemma ForkFrames(s: KState, slot: nat)
    requires Inv(s) && s.current in Live(s) && slot == FreeSlot(s.procs, 1)
    ensures TableOk(s, s.current)
    ensures var (s2, pt) := CopyPagetable(Claim(s, slot), slot);
      && (pt == -1 <==> !RoomForTables(s)) && (pt == -1 ==> ForkStops(s) == PROC_PAGES)
      && (pt != -1 ==>
            && 0 <= pt < NPAGES
            && var s3 := SetPagetable(s2, slot, pt);
               TableOk(s3, s3.current) && StopPage(s3, PROC_PAGES, FreeFrames(s3.pageinfo, NPAGES)) == ForkStops(s))
  {
    hide Core, SameViews, CopyPagetable, Live, Midway, Grown, TableOk, FreeFrames, StopPage;
    var (s2, pt) := CopyPagetable(Claim(s, slot), slot);
    LiveSlot(s, slot);
    ForkStart(s, slot, s2, pt);
    ClaimKeeps(s, slot);
    TableFrames(Claim(s, slot), Live(s) + {slot}, Live(s), slot);
    if pt != -1 {
      var s3 := SetPagetable(s2, slot, pt);
      StartViews(s, s3);
      StopSame(s, s3, PROC_PAGES, FreeFrames(s3.pageinfo, NPAGES));
    }
  }

  /**
   * fork builds a child exactly if a process slot is free, two frames below PROC_START_ADDR are,
   * and as many frames more as the parent has writable pages in process memory.
   */
  lemma ForkSucceedsExactly(s: KState)
    requires Inv(s) && s.current in Live(s)
    ensures TableOk(s, s.current) && Fork(s).Done?
    ensures Fork(s).ret != -1 <==> FreeSlot(s.procs, 1) != -1 && RoomForChild(s)
  {
    hide Core, SameViews, CopyRange, CopyPagetable, ForkRegisters, Live, Midway, Exit, Grown, Counted;
    hide TableOk, ForkStops, RoomForChild;
    hide Forked, RolledBack;
    ForkOutcome(s);
    CurrentTable(s);
    var slot := FreeSlot(s.procs, 1);
    StopsExactly(s);
    if slot != -1 {
      var (s2, pt) := CopyPagetable(Claim(s, slot), slot);
      LiveSlot(s, slot);
      ForkStart(s, slot, s2, pt);
      ForkFrames(s, slot);
      if pt != -1 {
        var s3 := SetPagetable(s2, slot, pt);
        CopyRangeBuilds(s3, Live(s) + {slot}, slot, PROC_PAGES);
        LoopCounts(s3, Live(s) + {slot}, slot, PROC_PAGES);
      }
    }
  }

  /**
   * What a successful fork does to the counts, exactly: two frames go to the child's page tables and
   * one to each page it gets a copy of; each process page the parent maps read-only counts one more.
   */
  lemma ForkCounts(s: KState)
    requires Inv(s) && s.current in Live(s) && Fork(s).Done? && Fork(s).ret != -1
    ensures TableOk(s, s.current)
    ensures forall f :: 0 <= f < NPAGES && s.pageinfo[f].owner != PO_FREE ==>
      && Fork(s).state.pageinfo[f].owner == s.pageinfo[f].owner
      && Fork(s).state.pageinfo[f].refcount == s.pageinfo[f].refcount +
           if s.pageinfo[f].owner > 0 && SharesAt(s, f) then 1 else 0
    ensures FreeFrames(s.pageinfo, NPAGES)
         == FreeFrames(Fork(s).state.pageinfo, NPAGES) + 2 + Copies(s, PROC_PAGES, VIRT_PAGES)
  {
    hide Core, SameViews, CopyRange, CopyPagetable, ForkRegisters, Live, Midway, Exit, Grown, Counted;
    hide TableOk, ForkStops, RoomForChild;
    hide Forked, RolledBack, FreeFrames, Copies;
    ForkSucceedsExactly(s);
    StopsExactly(s);
    var slot := FreeSlot(s.procs, 1);
    var (s2, pt) := CopyPagetable(Claim(s, slot), slot);
    LiveSlot(s, slot);
    ForkStart(s, slot, s2, pt);
    ForkFrames(s, slot);
    ClaimKeeps(s, slot);
    TableFrames(Claim(s, slot), Live(s) + {slot}, Live(s), slot);
    if pt != -1 {
      var s3 := SetPagetable(s2, slot, pt);
      StartViews(s, s3);
      LoopCounts(s3, Live(s) + {slot}, slot, PROC_PAGES);
      CopiesSame(s, s3, PROC_PAGES, VIRT_PAGES);
      var t := CopyRange(s3, slot, PROC_PAGES).state;
      RegistersKeepPages(t, slot);
      SharedCounts(s, s3, t, slot);
    }
  }

  lemma RegistersKeepPages(t: KState, slot: nat)
    requires slot < NPROC
    ensures ForkRegisters(t, slot).pageinfo == t.pageinfo
  {}

  lemma SharedCounts(s: KState, s3: KState, t: KState, slot: nat)
    requires 1 <= slot < NPROC && SameEntries(s, s3) && Counted(s3, t, slot, PROC_PAGES, VIRT_PAGES)
    requires Grown(s, s3, slot)
    requires forall f :: 0 <= f < NPAGES ==> s.pageinfo[f].owner != slot
    ensures forall f :: 0 <= f < NPAGES && s.pageinfo[f].owner != PO_FREE ==>
      && t.pageinfo[f].owner == s.pageinfo[f].owner
      && t.pageinfo[f].refcount == s.pageinfo[f].refcount + if s.pageinfo[f].owner > 0 && SharesAt(s, f) then 1 else 0
  {
    forall f | 0 <= f < NPAGES ensures SharesAt(s3, f) == SharesAt(s, f) {}
  }

  lemma CurrentTable(s: KState)
    requires Inv(s) && s.current in Live(s)
    ensures TableOk(s, s.current)
  {}

  lemma GrownCounted(s: KState, t: KState, slot: nat)
    requires s.current < NPROC && TableOk(s, s.current) && Grown(s, t, slot)
    ensures Counted(s, t, slot, PROC_PAGES, PROC_PAGES) && Grown(s, s, slot)
  {}

  lemma LiveSlot(s: KState, slot: nat)
    requires Inv(s) && 1 <= slot < NPROC && s.procs[slot].state.Free? && s.current in Live(s)
    ensures slot !in Live(s) && TableOk(s, s.current)
    ensures forall f :: 0 <= f < NPAGES ==> PageOk(s.pageinfo[f], Live(s)) && s.pageinfo[f].owner != slot
  {
    forall f | 0 <= f < NPAGES ensures PageOk(s.pageinfo[f], Live(s)) && s.pageinfo[f].owner != slot {}
  }

  lemma StartViews(s: KState, s3: KState)
    requires SameViews(s, s3, Live(s)) && s.current in Live(s) && s3.current == s.current
    ensures TableOk(s, s.current) && TableOk(s3, s.current)
    ensures forall x :: 0 <= x < NENTRIES ==> Entry(s3, s.current, x) == Entry(s, s.current, x)
  {
    assert SameView(s, s3, s.current);
  }

  /** From the state in which the loop stopped through the child's exit. */
  lemma ExitCounts(s: KState, s3: KState, t: KState, slot: nat, stop: nat)
    requires 1 <= slot < NPROC && s.current < NPROC && s3.current == s.current && TableOk(s, s.current)
    requires TableOk(s3, s.current)
    requires stop >= PROC_PAGES && Counted(s3, t, slot, PROC_PAGES, stop) && Grown(s, s3, slot)
    requires forall x :: 0 <= x < NENTRIES ==> Entry(s3, s.current, x) == Entry(s, s.current, x)
    requires forall f :: 0 <= f < NPAGES ==>
      (s.pageinfo[f].owner == PO_FREE <==> s.pageinfo[f].refcount == 0) && s.pageinfo[f].owner != slot
    requires forall f :: 0 <= f < NPAGES ==> s.pageinfo[f].refcount >= 0
    ensures forall f :: 0 <= f < NPAGES && s.pageinfo[f].owner != PO_FREE ==>
      var u := ForkFailed(t, slot).state;
      && u.pageinfo[f].owner == s.pageinfo[f].owner
      && u.pageinfo[f].refcount == s.pageinfo[f].refcount - if LosesReference(s, f, stop) then 1 else 0
  {
    forall f | 0 <= f < NPAGES ensures SharesAt(s3, f) == SharesAt(s, f) {}
  }
}
