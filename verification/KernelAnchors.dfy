/**
 * The assertions of set_pagetable (pset6/k-hardware.c:333-342): every page table a process runs
 * on must map three pages of the kernel image to themselves. When they hold, and what keeps them.
 */
module KernelAnchors {
  import opened Machine
  import opened Paging
  import opened KernelSpec
  import opened KernelInvariant
  import opened KernelFork

  /** The pages of default_int_handler, virtual_memory_map and the kernel's page table. */
  predicate Pinned(at: Layout, v: nat) {
    v == PageNumber(at.handler) || v == PageNumber(at.mapper) || v == at.kpt
  }

  ghost predicate AnchoredAt(at: Layout, s: KState, p: nat) {
    p < NPROC && TableOk(s, p) && forall v: nat :: v < NENTRIES && Pinned(at, v) ==>
        Entry(s, p, v).perm.p && Entry(s, p, v).frame == v
  }

  /** The pinned pages are the kernel's, and the processes in `tabled` map them to themselves. */
  ghost predicate Firm(at: Layout, s: KState, tabled: set<nat>) {
    && s.kpt == at.kpt && (forall v: nat :: v < NPAGES && Pinned(at, v) ==> s.pageinfo[v].owner == PO_KERNEL)
    && forall p :: p in tabled ==> AnchoredAt(at, s, p)
  }

  ghost predicate Anchored(at: Layout, s: KState) { Firm(at, s, Live(s)) }

  lemma PinnedLow(at: Layout, v: nat)
    requires Pinned(at, v)
    ensures 0x40 <= v < 0xA0 && v != CONSOLE && LowEntry(v) == Word(v, PW)
  {}

  // ---------------------------------------------------------------- set_pagetable

  /** An address looks up to itself exactly if its page is mapped to itself. */
  lemma LookupSelf(mem: seq<Page>, pt: nat, va: nat)
    requires pt < |mem| && va < NOADDR
    ensures Lookup(mem, pt, va).pa == va <==>
              Walk(mem, pt, PageNumber(va)).perm.p && Walk(mem, pt, PageNumber(va)).frame == PageNumber(va)
  {
    var f := Walk(mem, pt, PageNumber(va)).frame;
    assert va == PageNumber(va) * 4096 + PageOffset(va);
  }

  /** The kernel's own page table always passes. */
  lemma KernelPagetableOk(at: Layout, s: KState)
    requires KernelTableOk(s) && s.kpt == at.kpt
    ensures PagetableOk(at, s, s.kpt)
  {
    forall va: nat | PageNumber(va) < NPAGES ensures Lookup(s.mem, s.kpt, va).pa == va {
      KernelIdentity(s, va);
    }
  }

  lemma KernelIdentity(s: KState, va: nat)
    requires KernelTableOk(s) && PageNumber(va) < NPAGES
    ensures Lookup(s.mem, s.kpt, va).pa == va
  {
    LookupSelf(s.mem, s.kpt, va);
    var v := PageNumber(va);
    assert L1Index(v) == 0 && L2Index(v) == v;
  }

  /** set_pagetable accepts a process's table exactly if the process still maps the pinned pages to themselves. */
  lemma PagetableOkExactly(at: Layout, s: KState, p: nat)
    requires Inv(s) && p in Live(s) && s.kpt == at.kpt
    ensures PagetableOk(at, s, s.procs[p].pagetable) <==> AnchoredAt(at, s, p)
  {
    hide Lookup, Walk;
    var pt := s.procs[p].pagetable;
    assert TableOk(s, p);
    KernelIdentity(s, pt * PAGESIZE);
    forall va: nat | va < NOADDR && Pinned(at, PageNumber(va))
      ensures Lookup(s.mem, pt, va).pa == va <==>
        Entry(s, p, PageNumber(va)).perm.p && Entry(s, p, PageNumber(va)).frame == PageNumber(va)
    {
      LookupSelf(s.mem, pt, va);
      PinnedLow(at, PageNumber(va));
      WalkIsEntry(s, p, PageNumber(va));
    }
    assert PageNumber(s.kpt * PAGESIZE) == s.kpt;
  }

  // ---------------------------------------------------------------- what keeps the anchors

  /** Processes whose views stay keep their anchors, as long as the kernel's pages stay the kernel's. */
  lemma FirmSame(at: Layout, s: KState, t: KState, tabled: set<nat>, left: set<nat>)
    requires Firm(at, s, tabled) && left <= tabled && SameViews(s, t, left) && t.kpt == s.kpt
    requires forall f :: 0 <= f < NPAGES && s.pageinfo[f].owner == PO_KERNEL ==> t.pageinfo[f].owner == PO_KERNEL
    ensures Firm(at, t, left)
  {
    forall p | p in left ensures AnchoredAt(at, t, p) {
      assert AnchoredAt(at, s, p) && SameView(s, t, p);
    }
  }

  /**
   * A process that changes its entry for page v only keeps its anchors exactly if v is not pinned,
   * or v maps to itself.
   */
  lemma FirmOne(at: Layout, s: KState, t: KState, tabled: set<nat>, p: nat, v: nat)
    requires Firm(at, s, tabled) && p in tabled && SameViews(s, t, tabled - {p}) && t.kpt == s.kpt && v < NENTRIES
    requires p < NPROC && TableOk(s, p) && TableOk(t, p)
    requires forall x :: 0 <= x < NENTRIES && x != v ==> Entry(t, p, x) == Entry(s, p, x)
    requires forall f :: 0 <= f < NPAGES && s.pageinfo[f].owner == PO_KERNEL ==> t.pageinfo[f].owner == PO_KERNEL
    ensures Firm(at, t, tabled - {p})
    ensures !Pinned(at, v) ==> Firm(at, t, tabled)
    ensures Pinned(at, v) && Entry(t, p, v).frame != v ==> !AnchoredAt(at, t, p)
  {
    FirmSame(at, s, t, tabled, tabled - {p});
    assert AnchoredAt(at, s, p);
    forall q | q in tabled && q != p ensures AnchoredAt(at, t, q) {
      assert q in tabled - {p};
    }
  }

  /** A process with new tables is anchored. */
  lemma FirmNew(at: Layout, s: KState, t: KState, tabled: set<nat>, p: nat)
    requires Firm(at, s, tabled) && SameViews(s, t, tabled) && t.kpt == s.kpt && p < NPROC && TableOk(t, p)
    requires forall v :: 0 <= v < PROC_PAGES ==> Entry(t, p, v) == LowEntry(v)
    requires forall f :: 0 <= f < NPAGES && s.pageinfo[f].owner == PO_KERNEL ==> t.pageinfo[f].owner == PO_KERNEL
    ensures Firm(at, t, tabled + {p})
  {
    FirmSame(at, s, t, tabled, tabled);
    forall v: nat | v < NENTRIES && Pinned(at, v) ensures Entry(t, p, v) == Word(v, PW) {
      PinnedLow(at, v);
    }
  }
}
