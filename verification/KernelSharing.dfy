/**
 * Isolation: as long as no process loaded from a program image exits, a page one process can
 * write is mapped nowhere else. What fork and user stores mean to the processes.
 */
module KernelSharing {
  import opened Machine
  import opened Paging
  import opened KernelSpec
  import opened KernelInvariant
  import opened KernelFork
  import opened KernelSteps

  /** Pages of loaded processes keep their owner. */
  ghost predicate OwnersKept(s: KState, t: KState, loaded: set<nat>) {
    forall f :: 0 <= f < NPAGES && s.pageinfo[f].owner in loaded ==> t.pageinfo[f].owner == s.pageinfo[f].owner
  }

  /** Entries that did not change keep their sharing. */
  lemma SharingSame(s: KState, t: KState, live: set<nat>, live': set<nat>, tabled: set<nat>, tabled': set<nat>,
                    loaded: set<nat>)
    requires Core(s, live, tabled) && Core(t, live', tabled') && Sharing(s, live, tabled, loaded)
    requires tabled' <= tabled && loaded <= live' && SameViews(s, t, tabled') && OwnersKept(s, t, loaded)
    ensures Sharing(t, live', tabled', loaded)
  {
    forall p, v | p in tabled' && 0 <= v < NENTRIES ensures ReadOnlyOwned(t, p, v, loaded) {
      assert SameView(s, t, p) && ReadOnlyOwned(s, p, v, loaded);
    }
    forall p, v, q, x | p in tabled' && 0 <= v < NENTRIES && q in tabled' && 0 <= x < NENTRIES
      ensures Alone(t, p, v, q, x)
    {
      assert SameView(s, t, p) && SameView(s, t, q) && Alone(s, p, v, q, x);
    }
  }

  /** Nobody maps frame f for user code. */
  ghost predicate Unmapped(s: KState, tabled: set<nat>, f: nat) {
    forall q, x :: q in tabled && 0 <= x < NENTRIES ==>
        q < NPROC && TableOk(s, q) && !(UserAt(s, q, x) && Entry(s, q, x).frame == f)
  }

  /** Process p has one new entry, for a page of its own that nobody maps. */
  lemma SharingFresh(s: KState, t: KState, live: set<nat>, tabled: set<nat>, loaded: set<nat>, p: nat, v: nat, f: nat)
    requires Core(s, live, tabled) && Core(t, live, tabled) && Sharing(s, live, tabled, loaded)
    requires p in tabled && v < NENTRIES && f < NPAGES && Unmapped(s, tabled, f)
    requires SameViews(s, t, tabled - {p}) && OwnersKept(s, t, loaded)
    requires forall x :: 0 <= x < NENTRIES ==> Entry(t, p, x) == if x == v then Word(f, PWU) else Entry(s, p, x)
    ensures Sharing(t, live, tabled, loaded)
  {
    forall q, x | q in tabled && 0 <= x < NENTRIES
      ensures Entry(t, q, x) == if q == p && x == v then Word(f, PWU) else Entry(s, q, x)
    {
      if q != p {
        assert SameView(s, t, q);
      }
    }
    forall q, x | q in tabled && 0 <= x < NENTRIES ensures ReadOnlyOwned(t, q, x, loaded) {
      assert ReadOnlyOwned(s, q, x, loaded);
    }
    forall a, y, q, x | a in tabled && 0 <= y < NENTRIES && q in tabled && 0 <= x < NENTRIES
      ensures Alone(t, a, y, q, x)
    {
      assert Alone(s, a, y, q, x);
      assert !(UserAt(s, q, x) && Entry(s, q, x).frame == f) && !(UserAt(s, a, y) && Entry(s, a, y).frame == f);
    }
  }

  /** A free page is mapped by nobody. */
  lemma FreeUnmapped(s: KState, live: set<nat>, tabled: set<nat>, loaded: set<nat>, f: nat)
    requires Core(s, live, tabled) && Sharing(s, live, tabled, loaded) && f < NPAGES && s.pageinfo[f].owner == PO_FREE
    ensures Unmapped(s, tabled, f)
  {
    forall q, x | q in tabled && 0 <= x < NENTRIES ensures !(UserAt(s, q, x) && Entry(s, q, x).frame == f) {
      assert EntryOk(s, q, x) && ReadOnlyOwned(s, q, x, loaded);
    }
  }

  /** A successful fork: copies are the child's alone, shared pages are read-only everywhere. */
  lemma ForkShares(s: KState, t: KState, slot: nat, loaded: set<nat>)
    requires Inv(s) && Inv(t) && Forked(s, t, slot) && Sharing(s, Live(s), Live(s), loaded)
    ensures Sharing(t, Live(t), Live(t), loaded)
  {
    var live := Live(s);
    forall p, v | p in Live(t) && 0 <= v < NENTRIES ensures ReadOnlyOwned(t, p, v, loaded) {
      if p == slot {
        ChildEntry(s, t, slot, loaded, v);
        assert ReadOnlyOwned(s, s.current, v, loaded);
      } else {
        assert SameView(s, t, p) && ReadOnlyOwned(s, p, v, loaded);
      }
    }
    forall p, v, q, x | p in Live(t) && 0 <= v < NENTRIES && q in Live(t) && 0 <= x < NENTRIES
      ensures Alone(t, p, v, q, x)
    {
      hide Sharing, Inv, Forked;
      ForkAlone(s, t, slot, loaded, p, v, q, x);
    }
  }

  lemma EntryOkAt(s: KState, p: nat, v: nat)
    requires Inv(s) && p in Live(s) && v < NENTRIES
    ensures p < NPROC && EntryOk(s, p, v)
  {}

  lemma SharingAt(s: KState, live: set<nat>, loaded: set<nat>, p: nat, v: nat, q: nat, x: nat)
    requires Core(s, live, live) && Sharing(s, live, live, loaded) && p in live && q in live && v < NENTRIES
    requires x < NENTRIES
    ensures loaded <= live && p < NPROC && q < NPROC && TableOk(s, p) && TableOk(s, q)
    ensures ReadOnlyOwned(s, q, x, loaded) && Alone(s, p, v, q, x)
  {}

  lemma ForkAlone(s: KState, t: KState, slot: nat, loaded: set<nat>, p: nat, v: nat, q: nat, x: nat)
    requires Inv(s) && Inv(t) && Forked(s, t, slot) && Sharing(s, Live(s), Live(s), loaded)
    requires p in Live(t) && v < NENTRIES && q in Live(t) && x < NENTRIES
    ensures p < NPROC && q < NPROC && TableOk(t, p) && TableOk(t, q) && Alone(t, p, v, q, x)
  {
    hide Core, Sharing, InheritsFrom;
    EntryOkAt(t, p, v);
    EntryOkAt(t, q, x);
    if p == slot && q == slot {
      ChildAlone(s, t, slot, loaded, v, x);
    } else if p == slot {
      SharingAt(s, Live(s), loaded, q, x, q, x);
      assert SameView(s, t, q);
    } else if q == slot {
      ChildEntry(s, t, slot, loaded, x);
      SharingAt(s, Live(s), loaded, p, v, s.current, x);
      assert SameView(s, t, p);
    } else {
      SharingAt(s, Live(s), loaded, p, v, q, x);
      assert SameView(s, t, p) && SameView(s, t, q);
    }
  }

  /** The user entries of the child: its own fresh copy, or the parent's read-only page. */
  lemma ChildEntry(s: KState, t: KState, slot: nat, loaded: set<nat>, v: nat)
    requires Inv(s) && Inv(t) && Forked(s, t, slot) && Sharing(s, Live(s), Live(s), loaded) && v < NENTRIES
    ensures UserAt(t, slot, v) ==>
              && PROC_PAGES <= v < VIRT_PAGES
              && var e, d := Entry(s, s.current, v), Entry(t, slot, v);
                 && e.perm.p && e.perm.u && d.frame < NPAGES
                 && (e.perm.w <==> d.perm.w)
                 && (d.perm.w ==> s.pageinfo[d.frame].owner == PO_FREE && t.pageinfo[d.frame].owner == slot)
                 && (!d.perm.w ==> d.frame == e.frame && e.frame < NPAGES && s.pageinfo[e.frame].owner in loaded
                                   && t.pageinfo[e.frame].owner == s.pageinfo[e.frame].owner && UserAt(s, s.current, v))
  {
    assert PROC_PAGES <= v < VIRT_PAGES || Entry(t, slot, v) == LowEntry(v);
    if UserAt(t, slot, v) {
      if PROC_PAGES <= v < VIRT_PAGES {
        assert Inherits(s, t, s.current, slot, v);
        assert EntryOk(s, s.current, v);
        var e := Entry(s, s.current, v);
        if e.perm.p && !e.perm.w {
          assert ReadOnlyOwned(s, s.current, v, loaded);
          assert PageOk(s.pageinfo[e.frame], Live(s));
        }
      }
    }
  }

  lemma ChildAlone(s: KState, t: KState, slot: nat, loaded: set<nat>, v: nat, x: nat)
    requires Inv(s) && Inv(t) && Forked(s, t, slot) && Sharing(s, Live(s), Live(s), loaded) && v < NENTRIES
    requires x < NENTRIES
    ensures Alone(t, slot, v, slot, x)
  {
    ChildEntry(s, t, slot, loaded, v);
    ChildEntry(s, t, slot, loaded, x);
    assert EntryOk(t, slot, v) && EntryOk(t, slot, x);
    if PROC_PAGES <= v < x < VIRT_PAGES {
      assert OwnCopies(s, t, slot, v, x);
    } else if PROC_PAGES <= x < v < VIRT_PAGES {
      assert OwnCopies(s, t, slot, x, v);
    }
  }
}
