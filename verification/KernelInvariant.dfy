/**
 * The kernel's memory invariant, in two layers, and how the primitive updates keep it.
 *
 * Core holds in every reachable state: page tables belong to their process and are out of
 * reach of user code, a writable user page belongs to the process that maps it, a read-only
 * user page is mapped at its own address. Sharing adds what holds as long as no process that
 * was loaded from a program image exits: a page one process can write is mapped nowhere else.
 */
module KernelInvariant {
  import opened Common
  import opened Machine
  import opened Paging
  import opened KernelSpec

  /** The frame of process p's level-2 table. */
  ghost function Level2(s: KState, p: nat): nat
    requires p < NPROC
  {
    s.mem[s.procs[p].pagetable][0].frame
  }

  ghost predicate TableOk(s: KState, p: nat)
    requires p < NPROC
  {
    var l1, l2 := s.procs[p].pagetable, Level2(s, p);
    && 1 <= p && l1 < PROC_PAGES && l2 < PROC_PAGES && l1 != l2
    && s.pageinfo[l1] == PageInfo(p, 1) && s.pageinfo[l2] == PageInfo(p, 1)
    && s.mem[l1] == RootPage(l2)
  }

  /** Process p's entry for virtual page v. */
  ghost function Entry(s: KState, p: nat, v: nat): Word
    requires p < NPROC && v < NENTRIES && TableOk(s, p)
  {
    s.mem[Level2(s, p)][v]
  }

  /** Entry e at page v, seen from process p. */
  ghost predicate WordOk(s: KState, p: nat, v: nat, e: Word)
    requires p < NPROC
  {
    e.perm.p ==>
      && e.frame < NPAGES
      && (v >= PROC_PAGES ==> e.perm.u && e.frame != CONSOLE)
      && (e.perm.u && e.frame != CONSOLE ==>
            if e.perm.w then
              && s.pageinfo[e.frame].owner == p
              && e.frame != s.procs[p].pagetable && e.frame != Level2(s, p)
            else e.frame == v && PROC_PAGES <= v)
  }

  ghost predicate EntryOk(s: KState, p: nat, v: nat)
    requires p < NPROC && v < NENTRIES
  {
    TableOk(s, p) && WordOk(s, p, v, Entry(s, p, v))
  }

  ghost predicate PageOk(x: PageInfo, live: set<nat>) {
    && (x.owner == PO_FREE <==> x.refcount == 0)
    && (x.owner > 0 ==> x.owner in live && 1 <= x.refcount <= |live|)
    && (x.owner < 0 ==> x.refcount == 1)
  }

  /** The kernel's own page table maps every physical page to itself and belongs to the kernel. */
  ghost predicate KernelTableOk(s: KState) {
    var l2 := s.mem[s.kpt][0].frame;
    && l2 < NPAGES && l2 != s.kpt
    && s.pageinfo[s.kpt] == PageInfo(PO_KERNEL, 1) && s.pageinfo[l2] == PageInfo(PO_KERNEL, 1)
    && s.mem[s.kpt] == RootPage(l2)
    && (forall v :: 0 <= v < NPAGES ==> s.mem[l2][v].perm.p && s.mem[l2][v].frame == v)
    && s.pageinfo[CONSOLE] == PageInfo(PO_RESERVED, 1)
  }

  /**
   * `live` are the processes that may own pages, `tabled` those whose page tables are
   * complete; they differ only while a process is being built.
   */
  ghost predicate Core(s: KState, live: set<nat>, tabled: set<nat>) {
    && (forall p :: p in live ==> 1 <= p < NPROC)
    && tabled <= live
    && (forall f :: 0 <= f < NPAGES ==> PageOk(s.pageinfo[f], live))
    && (forall p :: p in tabled ==> TableOk(s, p))
    && (forall p, v :: p in tabled && 0 <= v < NENTRIES ==> EntryOk(s, p, v))
    && KernelTableOk(s)
  }

  /** p can write page v from user mode (the console aside). */
  ghost predicate WritableAt(s: KState, p: nat, v: nat)
    requires p < NPROC && v < NENTRIES && TableOk(s, p)
  {
    var e := Entry(s, p, v);
    e.perm.p && e.perm.u && e.perm.w && e.frame != CONSOLE
  }

  ghost predicate UserAt(s: KState, p: nat, v: nat)
    requires p < NPROC && v < NENTRIES && TableOk(s, p)
  {
    var e := Entry(s, p, v);
    e.perm.p && e.perm.u && e.frame != CONSOLE
  }

  /** If p can write the page at v and q sees the same page at x, they are one mapping. */
  ghost predicate Alone(s: KState, p: nat, v: nat, q: nat, x: nat)
    requires p < NPROC && v < NENTRIES && TableOk(s, p)
    requires q < NPROC && x < NENTRIES && TableOk(s, q)
  {
    WritableAt(s, p, v) && UserAt(s, q, x) && Entry(s, p, v).frame == Entry(s, q, x).frame ==> p == q && v == x
  }

  ghost predicate ReadOnlyOwned(s: KState, p: nat, v: nat, loaded: set<nat>)
    requires p < NPROC && v < NENTRIES && TableOk(s, p)
  {
    UserAt(s, p, v) && !WritableAt(s, p, v) ==>
      Entry(s, p, v).frame < NPAGES && s.pageinfo[Entry(s, p, v).frame].owner in loaded
  }

  ghost predicate Sharing(s: KState, live: set<nat>, tabled: set<nat>, loaded: set<nat>)
    requires Core(s, live, tabled)
  {
    && loaded <= live
    && (forall p, v :: p in tabled && 0 <= v < NENTRIES ==> ReadOnlyOwned(s, p, v, loaded))
    && (forall p, v, q, x :: p in tabled && 0 <= v < NENTRIES && q in tabled && 0 <= x < NENTRIES ==>
          Alone(s, p, v, q, x))
  }

  // ---------------------------------------------------------------- lookups in valid tables

  /** In a valid table the hardware walk is the level-2 entry, and nothing lies past 4 MB. */
  lemma WalkIsEntry(s: KState, p: nat, v: nat)
    requires p < NPROC && TableOk(s, p) && v < L1_PAGES
    ensures Walk(s.mem, s.procs[p].pagetable, v) ==
            if v < NENTRIES && Entry(s, p, v).perm.p then Entry(s, p, v) else ABSENT
  {
    if v < NENTRIES {
      assert L1Index(v) == 0 && L2Index(v) == v;
    } else {
      assert L1Index(v) != 0;
    }
  }

  lemma KernelWalk(s: KState, v: nat)
    requires KernelTableOk(s) && v < NPAGES
    ensures Walk(s.mem, s.kpt, v).perm.p && Walk(s.mem, s.kpt, v).frame == v
  {
    assert L1Index(v) == 0 && L2Index(v) == v;
  }

  /** Mapping one page below 4 MB in a valid table succeeds and sets that level-2 entry. */
  lemma MapOne(s: KState, p: nat, v: nat, f: nat, perm: Perm)
    requires p < NPROC && TableOk(s, p) && v < NENTRIES && f < NPAGES && perm.p
    ensures MapRange(s.mem, s.procs[p].pagetable, v * PAGESIZE, f * PAGESIZE, PAGESIZE, perm)
         == Some(s.mem[Level2(s, p) := s.mem[Level2(s, p)][v := Word(f, perm)]])
  {
    assert L1Index(v) == 0 && L2Index(v) == v;
    assert MapPages(s.mem, s.procs[p].pagetable, -1, 0, v, f, 1, perm)
        == MapPages(PutEntry(s.mem, Level2(s, p), v, Word(f, perm)), s.procs[p].pagetable, 0, Level2(s, p), v + 1,
            f + 1, 0, perm);
  }

  // ---------------------------------------------------------------- primitive updates

  /** A process whose tables and pages an update leaves alone keeps its tables and entries. */
  lemma Untouched(s: KState, t: KState, p: nat)
    requires p < NPROC && TableOk(s, p)
    requires t.procs[p].pagetable == s.procs[p].pagetable
    requires forall f :: 0 <= f < NPAGES && s.pageinfo[f].owner == p ==> t.pageinfo[f].owner == p
    requires t.pageinfo[s.procs[p].pagetable] == s.pageinfo[s.procs[p].pagetable]
    requires t.pageinfo[Level2(s, p)] == s.pageinfo[Level2(s, p)]
    requires t.mem[s.procs[p].pagetable] == s.mem[s.procs[p].pagetable]
    requires t.mem[Level2(s, p)] == s.mem[Level2(s, p)]
    ensures TableOk(t, p) && Level2(t, p) == Level2(s, p)
    ensures forall v :: 0 <= v < NENTRIES ==> Entry(t, p, v) == Entry(s, p, v)
    ensures forall v :: 0 <= v < NENTRIES && EntryOk(s, p, v) ==> EntryOk(t, p, v)
  {
    forall v | 0 <= v < NENTRIES && EntryOk(s, p, v) ensures EntryOk(t, p, v) {
      assert Entry(t, p, v) == Entry(s, p, v);
    }
  }

  /** The processes in `tabled` see the same tables and entries in both states. */
  ghost predicate SameViews(s: KState, t: KState, tabled: set<nat>)
  {
    forall p :: p in tabled ==> SameView(s, t, p)
  }

  ghost predicate SameView(s: KState, t: KState, p: nat) {
    && p < NPROC && TableOk(s, p) && TableOk(t, p)
    && t.procs[p].pagetable == s.procs[p].pagetable && Level2(t, p) == Level2(s, p)
    && t.mem[Level2(s, p)] == s.mem[Level2(s, p)]
  }

  /** Give a free frame to a live process and fill it. */
  lemma GrabKeeps(s: KState, live: set<nat>, tabled: set<nat>, f: nat, owner: nat, page: Page)
    requires Core(s, live, tabled) && f < NPAGES && s.pageinfo[f].owner == PO_FREE && owner in live
    ensures var t := Grab(s, f, owner).(mem := s.mem[f := page]);
            Core(t, live, tabled) && SameViews(s, t, tabled)
  {
    var t := Grab(s, f, owner).(mem := s.mem[f := page]);
    assert live >= {owner};
    forall p | p in tabled ensures SameView(s, t, p) && forall v :: 0 <= v < NENTRIES ==> EntryOk(t, p, v) {
      assert TableOk(s, p);
      Untouched(s, t, p);
    }
  }

  /** Store one entry of a valid table. */
  lemma PutKeeps(s: KState, live: set<nat>, tabled: set<nat>, p: nat, v: nat, w: Word)
    requires Core(s, live, tabled) && p in tabled && v < NENTRIES && WordOk(s, p, v, w)
    ensures var t := s.(mem := s.mem[Level2(s, p) := s.mem[Level2(s, p)][v := w]]);
            && Core(t, live, tabled) && SameViews(s, t, tabled - {p})
            && Level2(t, p) == Level2(s, p)
            && (forall x :: 0 <= x < NENTRIES ==> Entry(t, p, x) == if x == v then w else Entry(s, p, x))
  {
    var t := s.(mem := s.mem[Level2(s, p) := s.mem[Level2(s, p)][v := w]]);
    assert TableOk(t, p) && Level2(t, p) == Level2(s, p);
    forall q | q in tabled ensures forall x :: 0 <= x < NENTRIES ==> EntryOk(t, q, x) {
      assert TableOk(s, q);
      if q != p {
        Untouched(s, t, q);
      } else {
        forall x | 0 <= x < NENTRIES ensures EntryOk(t, q, x) {
          assert EntryOk(s, q, x);
        }
      }
    }
  }

  /** Count one more mapping of a page at or above PROC_START_ADDR. */
  lemma ShareKeeps(s: KState, live: set<nat>, tabled: set<nat>, f: nat)
    requires Core(s, live, tabled) && PROC_PAGES <= f < NPAGES && s.pageinfo[f].owner > 0
    requires s.pageinfo[f].refcount < |live|
    ensures var t := s.(pageinfo := s.pageinfo[f := PageInfo(s.pageinfo[f].owner, s.pageinfo[f].refcount + 1)]);
            Core(t, live, tabled) && SameViews(s, t, tabled)
  {
    var t := s.(pageinfo := s.pageinfo[f := PageInfo(s.pageinfo[f].owner, s.pageinfo[f].refcount + 1)]);
    forall p | p in tabled ensures SameView(s, t, p) && forall v :: 0 <= v < NENTRIES ==> EntryOk(t, p, v) {
      assert TableOk(s, p);
      Untouched(s, t, p);
    }
  }

  /** Fill frames that are nobody's page table. */
  lemma FillKeeps(s: KState, live: set<nat>, tabled: set<nat>, m: seq<Page>)
    requires Core(s, live, tabled) && |m| == NPAGES
    requires m[s.kpt] == s.mem[s.kpt] && m[s.mem[s.kpt][0].frame] == s.mem[s.mem[s.kpt][0].frame]
    requires forall p :: p in tabled ==>
      m[s.procs[p].pagetable] == s.mem[s.procs[p].pagetable] && m[Level2(s, p)] == s.mem[Level2(s, p)]
    ensures Core(s.(mem := m), live, tabled) && SameViews(s, s.(mem := m), tabled)
  {
    var t := s.(mem := m);
    forall p | p in tabled ensures SameView(s, t, p) && forall v :: 0 <= v < NENTRIES ==> EntryOk(t, p, v) {
      assert TableOk(s, p);
      Untouched(s, t, p);
    }
  }

  /** Registers, process states and `current` play no part. */
  lemma ProcsKeep(s: KState, live: set<nat>, tabled: set<nat>, t: KState)
    requires Core(s, live, tabled)
    requires t.pageinfo == s.pageinfo && t.mem == s.mem && t.kpt == s.kpt
    requires forall p :: p in tabled ==> t.procs[p].pagetable == s.procs[p].pagetable
    ensures Core(t, live, tabled) && SameViews(s, t, tabled)
  {
    forall p | p in tabled ensures SameView(s, t, p) && forall v :: 0 <= v < NENTRIES ==> EntryOk(t, p, v) {
      assert TableOk(s, p);
      Untouched(s, t, p);
    }
  }

  /** sys_exit(pid): the pages of pid are freed, shared pages lose a reference, other tables stay. */
  lemma ExitKeeps(s: KState, live: set<nat>, tabled: set<nat>, pid: nat)
    requires Core(s, live, tabled) && pid in live
    ensures Core(Exit(s, pid), live - {pid}, tabled - {pid})
    ensures SameViews(s, Exit(s, pid), tabled - {pid})
  {
    var t := Exit(s, pid);
    forall f | 0 <= f < NPAGES ensures PageOk(t.pageinfo[f], live - {pid}) {
      assert PageOk(s.pageinfo[f], live);
      if s.pageinfo[f].owner > 0 && s.pageinfo[f].owner != pid {
        var owner: nat := s.pageinfo[f].owner;
        assert live - {pid} >= {owner};
        assert |{owner}| <= |live - {pid}|;
      }
    }
    forall p | p in tabled - {pid} ensures SameView(s, t, p) && forall v :: 0 <= v < NENTRIES ==> EntryOk(t, p, v) {
      assert TableOk(s, p);
      Untouched(s, t, p);
    }
  }

  lemma SubsetSize(a: set<nat>, b: set<nat>)
    requires a <= b
    ensures |a| <= |b|
  {
    assert b == a + (b - a);
  }

  /** More processes may own pages. */
  lemma LiveGrows(s: KState, live: set<nat>, tabled: set<nat>, p: nat)
    requires Core(s, live, tabled) && 1 <= p < NPROC
    ensures Core(s, live + {p}, tabled)
  {
    SubsetSize(live, live + {p});
  }

  lemma AllocKeeps(s: KState, live: set<nat>, tabled: set<nat>, limit: nat, owner: nat)
    requires Core(s, live, tabled) && owner in live && limit <= NPAGES
    ensures var (t, f) := AllocFree(s, limit, owner);
            && Core(t, live, tabled) && SameViews(s, t, tabled)
            && t.mem == s.mem && t.procs == s.procs && t.current == s.current && t.kpt == s.kpt
            && (f == -1 ==> t == s && forall k :: 0 <= k < limit ==> s.pageinfo[k].owner != PO_FREE)
            && (f != -1 ==> 0 <= f < limit && s.pageinfo[f].owner == PO_FREE
                            && t.pageinfo == s.pageinfo[f := PageInfo(owner, 1)])
  {
    var k := FirstFree(s.pageinfo, 0, limit);
    if k != -1 {
      assert PageOk(s.pageinfo[k], live);
      GrabKeeps(s, live, tabled, k, owner, s.mem[k]);
      assert s.mem[k := s.mem[k]] == s.mem;
    } else {
      ProcsKeep(s, live, tabled, s);
    }
  }

  lemma SameViewsTrans(s: KState, t: KState, u: KState, tabled: set<nat>)
    requires SameViews(s, t, tabled) && SameViews(t, u, tabled)
    ensures SameViews(s, u, tabled)
  {
    forall p | p in tabled ensures SameView(s, u, p) {
      assert SameView(s, t, p) && SameView(t, u, p);
    }
  }

  /** Two fresh frames of p become its tables. */
  lemma InstallTables(s: KState, live: set<nat>, tabled: set<nat>, p: nat, l1: nat, l2: nat)
    requires Core(s, live, tabled) && p in live && p !in tabled
    requires l1 < PROC_PAGES && l2 < PROC_PAGES && l1 != l2
    requires s.pageinfo[l1] == PageInfo(p, 1) && s.pageinfo[l2] == PageInfo(p, 1)
    ensures var t := s.(mem := s.mem[l1 := RootPage(l2)][l2 := LowPage()]);
            var u := SetPagetable(t, p, l1);
            && Core(t, live, tabled) && SameViews(s, t, tabled)
            && Core(u, live, tabled + {p}) && SameViews(s, u, tabled)
            && forall v :: 0 <= v < NENTRIES ==> Entry(u, p, v) == LowEntry(v)
  {
    var t := s.(mem := s.mem[l1 := RootPage(l2)][l2 := LowPage()]);
    forall q | q in tabled
      ensures t.mem[s.procs[q].pagetable] == s.mem[s.procs[q].pagetable] && t.mem[Level2(s, q)] == s.mem[Level2(s, q)]
    {
      assert TableOk(s, q);
    }
    FillKeeps(s, live, tabled, t.mem);
    var u := SetPagetable(t, p, l1);
    ProcsKeep(t, live, tabled, u);
    SameViewsTrans(s, t, u, tabled);
    assert TableOk(u, p);
    forall v | 0 <= v < NENTRIES ensures EntryOk(u, p, v) && Entry(u, p, v) == LowEntry(v) {
    }
  }

  /** The pages copy_pagetable takes for process p. */
  lemma TablePages(s: KState, live: set<nat>, tabled: set<nat>, p: nat)
    requires Core(s, live, tabled) && p in live
    ensures var (s1, l1) := AllocFree(s, PROC_PAGES, p);
            var (s2, l2) := AllocFree(s1, PROC_PAGES, p);
            && Core(s1, live, tabled) && SameViews(s, s1, tabled) && Core(s2, live, tabled) && SameViews(s, s2, tabled)
            && s1.mem == s.mem && s1.procs == s.procs && s1.current == s.current
            && s2.mem == s.mem && s2.procs == s.procs && s2.current == s.current
            && Grown(s, s1, p) && Grown(s, s2, p)
            && (l1 != -1 && l2 != -1 ==>
                  && 0 <= l1 < PROC_PAGES && 0 <= l2 < PROC_PAGES && l1 != l2
                  && s.pageinfo[l1].owner == PO_FREE && s.pageinfo[l2].owner == PO_FREE
                  && s2.pageinfo[l1] == PageInfo(p, 1) && s2.pageinfo[l2] == PageInfo(p, 1))
  {
    hide Core, SameViews, AllocFree;
    var (s1, l1) := AllocFree(s, PROC_PAGES, p);
    CoreBounds(s, live, tabled);
    AllocKeeps(s, live, tabled, PROC_PAGES, p);
    AllocKeeps(s1, live, tabled, PROC_PAGES, p);
    SameViewsTrans(s, s1, AllocFree(s1, PROC_PAGES, p).0, tabled);
  }

  /** copy_pagetable: on success the new tables are valid, empty above PROC_START_ADDR, and nobody else's. */
  lemma NewTables(s: KState, live: set<nat>, tabled: set<nat>, p: nat, t: KState, pt: int)
    requires Core(s, live, tabled) && p in live && p !in tabled && (t, pt) == CopyPagetable(s, p)
    ensures Core(t, live, tabled) && SameViews(s, t, tabled) && Grown(s, t, p)
    ensures t.procs == s.procs && t.current == s.current
    ensures pt != -1 ==>
              && 0 <= pt < NPAGES
              && var u := SetPagetable(t, p, pt);
                 && Core(u, live, tabled + {p}) && SameViews(s, u, tabled)
                 && forall v :: 0 <= v < NENTRIES ==> Entry(u, p, v) == LowEntry(v)
  {
    hide Core, SameViews, AllocFree;
    TablePages(s, live, tabled, p);
    var (s1, l1) := AllocFree(s, PROC_PAGES, p);
    var (s2, l2) := AllocFree(s1, PROC_PAGES, p);
    if l1 == -1 {
    } else if l2 == -1 {
    } else {
      InstallTables(s2, live, tabled, p, l1, l2);
      SameViewsTrans(s, s2, t, tabled);
      SameViewsTrans(s, s2, SetPagetable(t, p, l1), tabled);
    }
  }

  /** From s to t, pages only went from free to p; pages in use keep owner, references and contents. */
  ghost predicate Grown(s: KState, t: KState, p: nat) {
    forall f :: 0 <= f < NPAGES ==>
      if s.pageinfo[f].owner == PO_FREE then t.pageinfo[f] == s.pageinfo[f] || t.pageinfo[f] == PageInfo(p, 1)
      else t.pageinfo[f] == s.pageinfo[f] && t.mem[f] == s.mem[f]
  }

  /** What Core says about process numbers and page descriptors. */
  lemma CoreBounds(s: KState, live: set<nat>, tabled: set<nat>)
    requires Core(s, live, tabled)
    ensures tabled <= live && forall p :: p in live ==> 1 <= p < NPROC
    ensures forall p :: p in tabled ==> TableOk(s, p)
    ensures forall f :: 0 <= f < NPAGES ==> PageOk(s.pageinfo[f], live)
  {}

  /** A free frame is nobody's page table. */
  lemma NotTables(s: KState, live: set<nat>, tabled: set<nat>, f: nat)
    requires Core(s, live, tabled) && f < NPAGES && s.pageinfo[f].owner == PO_FREE
    ensures f != s.kpt && f != s.mem[s.kpt][0].frame
    ensures forall p :: p in tabled ==> f != s.procs[p].pagetable && f != Level2(s, p)
  {
    forall p | p in tabled ensures f != s.procs[p].pagetable && f != Level2(s, p) {
      assert TableOk(s, p);
    }
  }
}
