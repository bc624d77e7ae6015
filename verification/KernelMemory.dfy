/**
 * Running out of memory in fork: how many frames are free, and the page of the parent at which the
 * loop of fork stops for want of one (pset6/kernel.c:222-275).
 */
module KernelMemory {
  import opened Machine
  import opened Paging
  import opened KernelSpec
  import opened KernelInvariant
  import opened KernelFork

  /** The free frames below `limit`. */
  function FreeFrames(pi: seq<PageInfo>, limit: nat): nat
    requires limit <= |pi|
  {
    if limit == 0 then 0 else FreeFrames(pi, limit - 1) + if pi[limit - 1].owner == PO_FREE then 1 else 0
  }

  lemma {:induction false} FreeSame(a: seq<PageInfo>, b: seq<PageInfo>, limit: nat)
    requires limit <= |a| == |b| && forall f :: 0 <= f < limit ==> (a[f].owner == PO_FREE <==> b[f].owner == PO_FREE)
    ensures FreeFrames(a, limit) == FreeFrames(b, limit)
  {
    if limit > 0 {
      FreeSame(a, b, limit - 1);
    }
  }

  lemma {:induction false} FreeUpdate(pi: seq<PageInfo>, f: nat, x: PageInfo, limit: nat)
    requires f < |pi| && limit <= |pi| && pi[f].owner == PO_FREE && x.owner != PO_FREE
    ensures FreeFrames(pi, limit) == FreeFrames(pi[f := x], limit) + if f < limit then 1 else 0
  {
    if limit > 0 {
      FreeUpdate(pi, f, x, limit - 1);
    }
  }

  lemma {:induction false} NoneFree(pi: seq<PageInfo>, limit: nat)
    requires limit <= |pi|
    ensures FreeFrames(pi, limit) == 0 <==> forall f :: 0 <= f < limit ==> pi[f].owner != PO_FREE
  {
    if limit > 0 {
      NoneFree(pi, limit - 1);
    }
  }

  /** An allocation takes one of the free frames, and fails exactly if there is none. */
  lemma AllocCounts(s: KState, live: set<nat>, tabled: set<nat>, limit: nat, owner: nat, all: nat)
    requires Core(s, live, tabled) && owner in live && limit <= all <= NPAGES
    ensures var (t, f) := AllocFree(s, limit, owner);
      && (f == -1 <==> FreeFrames(s.pageinfo, limit) == 0)
      && FreeFrames(s.pageinfo, all) == FreeFrames(t.pageinfo, all) + if f == -1 then 0 else 1
  {
    AllocKeeps(s, live, tabled, limit, owner);
    NoneFree(s.pageinfo, limit);
    var (t, f) := AllocFree(s, limit, owner);
    if f != -1 {
      FreeUpdate(s.pageinfo, f, PageInfo(owner, 1), all);
    }
  }

  // ---------------------------------------------------------------- where the loop stops

  /** fork's loop copies page x for the child: the parent can write it. */
  ghost predicate CopiesAt(s: KState, x: nat)
    requires s.current < NPROC && TableOk(s, s.current) && x < NENTRIES
  {
    Entry(s, s.current, x).perm.p && Entry(s, s.current, x).perm.w
  }

  /** How many pages in [v, end) it copies. */
  ghost function Copies(s: KState, v: nat, end: nat): nat
    requires s.current < NPROC && TableOk(s, s.current) && end <= NENTRIES
    decreases end - v
  {
    if v >= end then 0 else (if CopiesAt(s, v) then 1 else 0) + Copies(s, v + 1, end)
  }

  /** The page at which the loop from v on stops with this many frames free; VIRT_PAGES if it does not. */
  ghost function StopPage(s: KState, v: nat, free: nat): (stop: nat)
    requires s.current < NPROC && TableOk(s, s.current) && v <= VIRT_PAGES
    ensures v <= stop <= VIRT_PAGES
    decreases VIRT_PAGES - v
  {
    if v == VIRT_PAGES then v
    else if !CopiesAt(s, v) then StopPage(s, v + 1, free)
    else if free == 0 then v
    else StopPage(s, v + 1, free - 1)
  }

  /** It is the first page to copy before which the loop has copied as many pages as frames were free. */
  lemma {:induction false} StopPageIs(s: KState, v: nat, free: nat)
    requires s.current < NPROC && TableOk(s, s.current) && v <= VIRT_PAGES
    ensures var stop := StopPage(s, v, free);
      && (stop < VIRT_PAGES ==> CopiesAt(s, stop) && Copies(s, v, stop) == free)
      && (stop < VIRT_PAGES <==> Copies(s, v, VIRT_PAGES) > free)
    decreases VIRT_PAGES - v
  {
    hide TableOk, CopiesAt;
    if v < VIRT_PAGES && !(CopiesAt(s, v) && free == 0) {
      StopPageIs(s, v + 1, if CopiesAt(s, v) then free - 1 else free);
    }
  }

  ghost predicate SameEntries(s: KState, t: KState) {
    && s.current < NPROC && t.current == s.current && TableOk(s, s.current) && TableOk(t, s.current)
    && forall x :: 0 <= x < NENTRIES ==> Entry(t, s.current, x) == Entry(s, s.current, x)
  }

  lemma {:induction false} StopSame(s: KState, t: KState, v: nat, free: nat)
    requires SameEntries(s, t) && v <= VIRT_PAGES
    ensures StopPage(s, v, free) == StopPage(t, v, free)
    decreases VIRT_PAGES - v
  {
    hide TableOk;
    if v < VIRT_PAGES && !(CopiesAt(s, v) && free == 0) {
      assert CopiesAt(s, v) == CopiesAt(t, v);
      StopSame(s, t, v + 1, if CopiesAt(s, v) then free - 1 else free);
    }
  }

  lemma {:induction false} CopiesSame(s: KState, t: KState, v: nat, end: nat)
    requires SameEntries(s, t) && end <= NENTRIES
    ensures Copies(s, v, end) == Copies(t, v, end)
    decreases end - v
  {
    hide TableOk;
    if v < end {
      assert CopiesAt(s, v) == CopiesAt(t, v);
      CopiesSame(s, t, v + 1, end);
    }
  }

  /** What fork finds in the state before: two frames for page tables. */
  ghost predicate RoomForTables(s: KState) { FreeFrames(s.pageinfo, PROC_PAGES) >= 2 }

  /** How far fork comes: to PROC_START_ADDR without page tables, to VIRT_PAGES if it builds a child. */
  ghost function ForkStops(s: KState): (stop: nat)
    requires s.current < NPROC && TableOk(s, s.current)
  {
    if !RoomForTables(s) then PROC_PAGES
    else
      LowFree(s.pageinfo, PROC_PAGES, NPAGES);
      StopPage(s, PROC_PAGES, FreeFrames(s.pageinfo, NPAGES) - 2)
  }

  lemma {:induction false} LowFree(pi: seq<PageInfo>, low: nat, all: nat)
    requires low <= all <= |pi|
    ensures FreeFrames(pi, low) <= FreeFrames(pi, all)
    decreases all
  {
    if low < all {
      LowFree(pi, low, all - 1);
    }
  }

  /** There is memory for a child: two frames for its tables, and one for each page it gets a copy of. */
  ghost predicate RoomForChild(s: KState)
    requires s.current < NPROC && TableOk(s, s.current)
  {
    RoomForTables(s) && FreeFrames(s.pageinfo, NPAGES) >= 2 + Copies(s, PROC_PAGES, VIRT_PAGES)
  }

  lemma StopsExactly(s: KState)
    requires s.current < NPROC && TableOk(s, s.current)
    ensures ForkStops(s) == VIRT_PAGES <==> RoomForChild(s)
    ensures PROC_PAGES <= ForkStops(s) <= VIRT_PAGES
  {
    hide TableOk;
    if RoomForTables(s) {
      LowFree(s.pageinfo, PROC_PAGES, NPAGES);
      StopPageIs(s, PROC_PAGES, FreeFrames(s.pageinfo, NPAGES) - 2);
    }
  }

  lemma ForkStopsSame(s: KState, t: KState)
    requires SameEntries(s, t) && t.pageinfo == s.pageinfo
    ensures ForkStops(t) == ForkStops(s)
  {
    if RoomForTables(s) {
      LowFree(s.pageinfo, PROC_PAGES, NPAGES);
      StopSame(s, t, PROC_PAGES, FreeFrames(s.pageinfo, NPAGES) - 2);
    }
  }

  // ---------------------------------------------------------------- page tables

  /** copy_pagetable takes two frames below PROC_START_ADDR, and fails exactly if they are not there. */
  lemma TableFrames(s: KState, live: set<nat>, tabled: set<nat>, p: nat)
    requires Core(s, live, tabled) && p in live
    ensures var (t, pt) := CopyPagetable(s, p);
      && (pt == -1 <==> FreeFrames(s.pageinfo, PROC_PAGES) < 2)
      && (pt != -1 ==> FreeFrames(s.pageinfo, NPAGES) == FreeFrames(t.pageinfo, NPAGES) + 2)
      && (pt != -1 ==> FreeFrames(s.pageinfo, PROC_PAGES) == FreeFrames(t.pageinfo, PROC_PAGES) + 2)
      && forall f :: PROC_PAGES <= f < NPAGES ==> t.pageinfo[f] == s.pageinfo[f]
  {
    hide Core, SameViews, FreeFrames, AllocFree;
    TablePages(s, live, tabled, p);
    var (s1, l1) := AllocFree(s, PROC_PAGES, p);
    AllocCounts(s, live, tabled, PROC_PAGES, p, PROC_PAGES);
    AllocCounts(s, live, tabled, PROC_PAGES, p, NPAGES);
    AllocCounts(s1, live, tabled, PROC_PAGES, p, PROC_PAGES);
    AllocCounts(s1, live, tabled, PROC_PAGES, p, NPAGES);
    AllocBelow(s, live, tabled, p);
    AllocBelow(s1, live, tabled, p);
  }

  lemma AllocBelow(s: KState, live: set<nat>, tabled: set<nat>, p: nat)
    requires Core(s, live, tabled) && p in live
    ensures forall f :: PROC_PAGES <= f < NPAGES ==> AllocFree(s, PROC_PAGES, p).0.pageinfo[f] == s.pageinfo[f]
  {
    AllocKeeps(s, live, tabled, PROC_PAGES, p);
  }

  /** Frames below a limit are taken no faster than all of them. */
  lemma {:induction false} LowTaken(a: seq<PageInfo>, b: seq<PageInfo>, low: nat, all: nat)
    requires low <= all <= |a| == |b| && forall f :: 0 <= f < all && b[f].owner == PO_FREE ==> a[f].owner == PO_FREE
    ensures FreeFrames(b, low) <= FreeFrames(a, low)
    ensures FreeFrames(a, low) - FreeFrames(b, low) <= FreeFrames(a, all) - FreeFrames(b, all)
    decreases all
  {
    if low < all {
      LowTaken(a, b, low, all - 1);
    } else if low > 0 {
      LowTaken(a, b, low - 1, low - 1);
    }
  }
}
