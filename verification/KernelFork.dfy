/**
 * fork: the loop that builds the child's memory, what the child inherits, and the
 * rollback when memory runs out (pset6/kernel.c:240-302).
 */
module KernelFork {
  import opened Machine
  import opened Paging
  import opened KernelSpec
  import opened KernelInvariant

  /**
   * Between s and t only process c grew: free pages stayed free or became c's, pages in
   * use kept their owner, lost no reference, and (c's level-2 table aside) their contents.
   */
  ghost predicate Built(s: KState, t: KState, c: nat, l2: nat) {
    forall f :: 0 <= f < NPAGES ==>
      if s.pageinfo[f].owner == PO_FREE then t.pageinfo[f].owner in {PO_FREE, c}
      else
        && t.pageinfo[f].owner == s.pageinfo[f].owner && t.pageinfo[f].refcount >= s.pageinfo[f].refcount
        && (f != l2 ==> t.mem[f] == s.mem[f])
  }

  lemma BuiltTrans(s: KState, t: KState, u: KState, c: nat, l2: nat)
    requires Built(s, t, c, l2) && Built(t, u, c, l2) && c != PO_FREE
    ensures Built(s, u, c, l2)
  {
    forall f | 0 <= f < NPAGES
      ensures if s.pageinfo[f].owner == PO_FREE then u.pageinfo[f].owner in {PO_FREE, c}
              else
                && u.pageinfo[f].owner == s.pageinfo[f].owner && u.pageinfo[f].refcount >= s.pageinfo[f].refcount
                && (f != l2 ==> u.mem[f] == s.mem[f])
    {
      assert t.pageinfo[f].owner == PO_FREE || t.pageinfo[f].owner != PO_FREE;
    }
  }

  /** The fork loop has reached page v: valid tables, room to count one more reference, no entry at v or above. */
  ghost predicate Midway(s: KState, live: set<nat>, c: nat, v: nat) {
    && Core(s, live, live) && c in live && s.current in live && c != s.current && PROC_PAGES <= v
    && 2 <= |live|
    && (forall f :: v <= f < NPAGES ==> s.pageinfo[f].refcount < |live|)
    && (forall x :: v <= x < NENTRIES ==> Entry(s, c, x) == ABSENT)
  }

  /** What child c has in t at page x, given what its parent had in s. */
  ghost predicate Inherits(s: KState, t: KState, parent: nat, c: nat, x: nat)
    requires parent < NPROC && c < NPROC && x < NENTRIES && TableOk(s, parent) && TableOk(t, c)
  {
    var e, d := Entry(s, parent, x), Entry(t, c, x);
    if !e.perm.p then d == ABSENT
    else if e.perm.w then
      e.frame < NPAGES && d.frame < NPAGES && d.perm == e.perm && t.mem[d.frame] == s.mem[e.frame]
      && t.pageinfo[d.frame].owner == c && s.pageinfo[d.frame].owner == PO_FREE
    else Shareable(s.pageinfo, e.frame) ==> d == Word(e.frame, PU) && t.mem[e.frame] == s.mem[e.frame]
  }

  /** What one turn of the loop at page v does for child c, whichever branch it takes. */
  ghost predicate Turn(s: KState, t: KState, live: set<nat>, c: nat, v: nat) {
    && c < NPROC && s.current < NPROC && v < NENTRIES
    && t.procs == s.procs && t.current == s.current && t.kpt == s.kpt
    && Built(s, t, c, Level2(s, c)) && SameViews(s, t, live - {c})
    && Level2(t, c) == Level2(s, c) && TableOk(s, c) && TableOk(t, c) && TableOk(s, s.current)
    && (forall x :: 0 <= x < NENTRIES && x != v ==> Entry(t, c, x) == Entry(s, c, x))
    && Inherits(s, t, s.current, c, v)
  }

  lemma MidwayFacts(s: KState, live: set<nat>, c: nat, v: nat)
    requires Midway(s, live, c, v)
    ensures c < NPROC && s.current < NPROC && TableOk(s, s.current) && TableOk(s, c)
  {}

  lemma SubsetViews(s: KState, t: KState, a: set<nat>, b: set<nat>)
    requires SameViews(s, t, a) && b <= a
    ensures SameViews(s, t, b)
  {}

  /** A state before and after an allocation, a fill or a new reference, as seen by the child. */
  ghost predicate Prepared(s: KState, t: KState, live: set<nat>, c: nat, v: nat) {
    && c < NPROC && Core(t, live, live) && SameViews(s, t, live)
    && t.procs == s.procs && t.current == s.current && t.kpt == s.kpt
    && (forall f :: v < f < NPAGES ==> t.pageinfo[f].refcount < |live|)
    && Built(s, t, c, Level2(s, c))
  }

  /** Map frame f at page v for the child, after preparation: the turn is complete. */
  lemma FinishTurn(s: KState, t: KState, live: set<nat>, c: nat, v: nat, f: nat, perm: Perm)
    requires Midway(s, live, c, v) && v < VIRT_PAGES && c < NPROC && Prepared(s, t, live, c, v)
    requires f < NPAGES && perm.p && WordOk(t, c, v, Word(f, perm))
    ensures MapPage(t, c, v * PAGESIZE, f * PAGESIZE, perm).Done?
    ensures var u := MapPage(t, c, v * PAGESIZE, f * PAGESIZE, perm).state;
            && Midway(u, live, c, v + 1)
            && u.procs == s.procs && u.current == s.current && u.kpt == s.kpt && u.pageinfo == t.pageinfo
            && Built(s, u, c, Level2(s, c)) && SameViews(s, u, live - {c}) && Level2(u, c) == Level2(s, c)
            && u.mem == t.mem[Level2(s, c) := u.mem[Level2(s, c)]]
            && (forall x :: 0 <= x < NENTRIES ==> Entry(u, c, x) == if x == v then Word(f, perm) else Entry(s, c, x))
  {
    assert SameView(s, t, c);
    MapOne(t, c, v, f, perm);
    PutKeeps(t, live, live, c, v, Word(f, perm));
    var u := MapPage(t, c, v * PAGESIZE, f * PAGESIZE, perm).state;
    SubsetViews(s, t, live, live - {c});
    SameViewsTrans(s, t, u, live - {c});
    forall x | 0 <= x < NENTRIES ensures Entry(u, c, x) == if x == v then Word(f, perm) else Entry(s, c, x) {
      assert Entry(t, c, x) == Entry(s, c, x);
    }
  }

  /** The child's new page holds a copy, and is not yet mapped. */
  lemma CopyPrepared(s: KState, live: set<nat>, c: nat, v: nat, s1: KState, f: int)
    requires Midway(s, live, c, v) && v < VIRT_PAGES
    requires Entry(s, s.current, v).perm.p && Entry(s, s.current, v).perm.w
    requires (s1, f) == AllocFree(s, NPAGES, c) && f != -1
    ensures var e := Entry(s, s.current, v);
            && e.frame < NPAGES && 0 <= f < NPAGES && f != Level2(s, c) && s.pageinfo[f].owner == PO_FREE
            && var t := s1.(mem := s1.mem[f := s1.mem[e.frame]]);
               Prepared(s, t, live, c, v) && t.pageinfo[f].owner == c && t.mem[f] == s.mem[e.frame]
               && WordOk(t, c, v, Word(f, e.perm))
  {
    hide Core, SameViews, Midway, Built, WordOk;
    MidwayCore(s, live, c, v);
    var e := Entry(s, s.current, v);
    AllocKeeps(s, live, live, NPAGES, c);
    NotTables(s, live, live, f);
    GrabKeeps(s, live, live, f, c, s.mem[e.frame]);
    var t := s1.(mem := s1.mem[f := s1.mem[e.frame]]);
    assert t == Grab(s, f, c).(mem := s.mem[f := s.mem[e.frame]]);
    CopyKeeps(s, t, live, c, v, f, e.perm);
  }

  /** What is known of memory and of the parent's entry while fork's loop is at page v. */
  lemma MidwayCore(s: KState, live: set<nat>, c: nat, v: nat)
    requires Midway(s, live, c, v) && v < VIRT_PAGES
    ensures Core(s, live, live) && c in live && 1 <= c < NPROC && 2 <= |live| && TableOk(s, c)
    ensures s.current < NPROC && TableOk(s, s.current) && s.pageinfo[CONSOLE].owner != PO_FREE
    ensures forall f :: v <= f < NPAGES ==> s.pageinfo[f].refcount < |live|
    ensures var e := Entry(s, s.current, v); PROC_PAGES <= v && (e.perm.p ==> e.frame < NPAGES && e.perm.u)
  {
    assert EntryOk(s, s.current, v);
  }

  lemma CopyKeeps(s: KState, t: KState, live: set<nat>, c: nat, v: nat, f: nat, perm: Perm)
    requires c < NPROC && TableOk(s, c) && f < NPAGES && s.pageinfo[f].owner == PO_FREE && 2 <= |live|
    requires f != s.procs[c].pagetable && f != Level2(s, c) && f != CONSOLE && perm.u && perm.w
    requires t == Grab(s, f, c).(mem := s.mem[f := t.mem[f]])
    requires forall g :: v <= g < NPAGES ==> s.pageinfo[g].refcount < |live|
    ensures forall g :: v < g < NPAGES ==> t.pageinfo[g].refcount < |live|
    ensures Built(s, t, c, Level2(s, c)) && WordOk(t, c, v, Word(f, perm))
  {}

  /** One turn of the loop for a writable page. */
  lemma CopyTurn(s: KState, live: set<nat>, c: nat, v: nat, s1: KState, f: int)
    requires Midway(s, live, c, v) && v < VIRT_PAGES
    requires Entry(s, s.current, v).perm.p && Entry(s, s.current, v).perm.w
    requires (s1, f) == AllocFree(s, NPAGES, c) && f != -1
    ensures Entry(s, s.current, v).frame < NPAGES && 0 <= f < NPAGES
    ensures var e := Entry(s, s.current, v);
            var r := CopyPage(s1, c, v, e.frame, f, e.perm);
            r.Done? && Midway(r.state, live, c, v + 1) && Turn(s, r.state, live, c, v)
  {
    hide Core, SameViews, Midway, MapPage, Prepared, AllocFree;
    MidwayFacts(s, live, c, v);
    var e := Entry(s, s.current, v);
    CopyPrepared(s, live, c, v, s1, f);
    var t := s1.(mem := s1.mem[f := s1.mem[e.frame]]);
    FinishTurn(s, t, live, c, v, f, e.perm);
    var u := CopyPage(s1, c, v, e.frame, f, e.perm).state;
    MidwayFacts(u, live, c, v + 1);
    assert u.mem[f] == s.mem[e.frame];
    assert Inherits(s, u, s.current, c, v);
  }

  /** The shared page is counted, and not yet mapped. */
  lemma SharePrepared(s: KState, live: set<nat>, c: nat, v: nat)
    requires Midway(s, live, c, v) && v < VIRT_PAGES
    requires Entry(s, s.current, v).perm.p && !Entry(s, s.current, v).perm.w
    requires Shareable(s.pageinfo, Entry(s, s.current, v).frame)
    ensures var f := Entry(s, s.current, v).frame;
            && f == v && f < NPAGES && f != Level2(s, c)
            && var t := s.(pageinfo := s.pageinfo[f := PageInfo(s.pageinfo[f].owner, s.pageinfo[f].refcount + 1)]);
               Prepared(s, t, live, c, v) && WordOk(t, c, v, Word(f, PU))
  {
    var f := Entry(s, s.current, v).frame;
    assert EntryOk(s, s.current, v);
    assert TableOk(s, c);
    ShareKeeps(s, live, live, f);
  }

  /** One turn of the loop for a read-only page in use. */
  lemma ShareTurn(s: KState, live: set<nat>, c: nat, v: nat)
    requires Midway(s, live, c, v) && v < VIRT_PAGES
    requires Entry(s, s.current, v).perm.p && !Entry(s, s.current, v).perm.w
    requires Shareable(s.pageinfo, Entry(s, s.current, v).frame)
    ensures Entry(s, s.current, v).frame < NPAGES
    ensures var r := SharePage(s, c, v, Entry(s, s.current, v).frame);
            r.Done? && Midway(r.state, live, c, v + 1) && Turn(s, r.state, live, c, v)
  {
    hide Core, SameViews, Midway, MapPage, Prepared;
    MidwayFacts(s, live, c, v);
    var f := Entry(s, s.current, v).frame;
    SharePrepared(s, live, c, v);
    var t := s.(pageinfo := s.pageinfo[f := PageInfo(s.pageinfo[f].owner, s.pageinfo[f].refcount + 1)]);
    FinishTurn(s, t, live, c, v, f, PU);
    var u := SharePage(s, c, v, f).state;
    MidwayFacts(u, live, c, v + 1);
    assert u.mem[f] == s.mem[f];
    assert Inherits(s, u, s.current, c, v);
  }

  /** A skipped page is a turn too. */
  lemma SkipTurn(s: KState, live: set<nat>, c: nat, v: nat)
    requires Midway(s, live, c, v) && v < VIRT_PAGES
    requires !Entry(s, s.current, v).perm.p ||
             (!Entry(s, s.current, v).perm.w && !Shareable(s.pageinfo, Entry(s, s.current, v).frame))
    ensures Midway(s, live, c, v + 1) && Turn(s, s, live, c, v)
  {
    assert Entry(s, c, v) == ABSENT;
    forall p | p in live - {c} ensures SameView(s, s, p) {
      assert TableOk(s, p);
    }
  }

  /** What the loop from page v on has done to s when it stops in t. */
  ghost predicate Grew(s: KState, t: KState, live: set<nat>, c: nat, v: nat) {
    && Core(t, live, live) && c in live && c < NPROC && s.current < NPROC
    && t.procs == s.procs && t.current == s.current && t.kpt == s.kpt
    && TableOk(s, c) && TableOk(t, c) && Level2(t, c) == Level2(s, c)
    && Built(s, t, c, Level2(s, c)) && SameViews(s, t, live - {c})
    && (forall x :: 0 <= x < NENTRIES && !(v <= x < VIRT_PAGES) ==> Entry(t, c, x) == Entry(s, c, x))
  }

  /** The child has its own copies at pages x and y. */
  ghost predicate OwnCopies(s: KState, t: KState, c: nat, x: nat, y: nat)
    requires s.current < NPROC && c < NPROC && x < NENTRIES && y < NENTRIES && TableOk(s, s.current) && TableOk(t, c)
  {
    var e, d := Entry(s, s.current, x), Entry(s, s.current, y);
    e.perm.p && e.perm.w && d.perm.p && d.perm.w ==> Entry(t, c, x).frame != Entry(t, c, y).frame
  }

  ghost predicate InheritsFrom(s: KState, t: KState, c: nat, v: nat)
  {
    && c < NPROC && s.current < NPROC && TableOk(s, s.current) && TableOk(t, c)
    && (forall x :: v <= x < VIRT_PAGES ==> Inherits(s, t, s.current, c, x))
    && (forall x, y :: v <= x < y < VIRT_PAGES ==> OwnCopies(s, t, c, x, y))
  }

  /** One turn, then the rest of the loop. */
  lemma TurnThenRest(s: KState, u: KState, t: KState, live: set<nat>, c: nat, v: nat)
    requires Midway(s, live, c, v) && v < VIRT_PAGES && Turn(s, u, live, c, v) && Grew(u, t, live, c, v + 1)
    ensures Grew(s, t, live, c, v)
    ensures InheritsFrom(u, t, c, v + 1) ==> InheritsFrom(s, t, c, v)
  {
    BuiltTrans(s, u, t, c, Level2(s, c));
    SameViewsTrans(s, u, t, live - {c});
    if InheritsFrom(u, t, c, v + 1) {
      forall x | v <= x < VIRT_PAGES ensures Inherits(s, t, s.current, c, x) {
        assert EntryOk(s, s.current, x) && EntryOk(t, c, x);
        assert SameView(s, u, s.current);
        if x == v {
          assert Inherits(s, u, s.current, c, v) && Entry(t, c, v) == Entry(u, c, v);
        } else {
          assert Inherits(u, t, s.current, c, x) && Entry(u, s.current, x) == Entry(s, s.current, x);
        }
      }
      forall x, y | v <= x < y < VIRT_PAGES ensures OwnCopies(s, t, c, x, y) {
        assert SameView(s, u, s.current);
        assert Entry(u, s.current, x) == Entry(s, s.current, x) && Entry(u, s.current, y) == Entry(s, s.current, y);
        assert Inherits(u, t, s.current, c, y);
        if x == v {
          assert Inherits(s, u, s.current, c, v) && Entry(t, c, v) == Entry(u, c, v);
        } else {
          assert OwnCopies(u, t, c, x, y);
        }
      }
    }
  }

  /** The loop from page v on ends in r: memory built, or no physical page left. */
  ghost predicate LoopEnds(s: KState, r: Result, live: set<nat>, c: nat, v: nat) {
    && r.Done? && r.ret in {0, -1} && Grew(s, r.state, live, c, v)
    && (r.ret == 0 ==> InheritsFrom(s, r.state, c, v))
    && (r.ret == -1 ==> forall f :: 0 <= f < NPAGES ==> r.state.pageinfo[f].owner != PO_FREE)
  }

  /** The whole loop: it never panics, and fails only when no physical page is free. */
  lemma {:induction false} CopyRangeBuilds(s: KState, live: set<nat>, c: nat, v: nat)
    requires Midway(s, live, c, v) && v <= VIRT_PAGES
    ensures LoopEnds(s, CopyRange(s, c, v), live, c, v)
    decreases VIRT_PAGES - v
  {
    hide Midway, Turn, Grew, InheritsFrom, CopyRange, TableOk, AllocFree;
    MidwayFacts(s, live, c, v);
    if v == VIRT_PAGES {
      LoopAtEnd(s, live, c);
    } else if Entry(s, s.current, v).perm.p && Entry(s, s.current, v).perm.w && AllocFree(s, NPAGES, c).1 == -1 {
      OutOfMemory(s, live, c, v);
    } else {
      var u := TakeTurn(s, live, c, v);
      CopyRangeBuilds(u, live, c, v + 1);
      TurnThenRest(s, u, CopyRange(u, c, v + 1).state, live, c, v);
    }
  }

  lemma LoopAtEnd(s: KState, live: set<nat>, c: nat)
    requires Midway(s, live, c, VIRT_PAGES)
    ensures LoopEnds(s, CopyRange(s, c, VIRT_PAGES), live, c, VIRT_PAGES)
  {
    ProcsKeep(s, live, live, s);
  }

  lemma OutOfMemory(s: KState, live: set<nat>, c: nat, v: nat)
    requires Midway(s, live, c, v) && v < VIRT_PAGES
    requires Entry(s, s.current, v).perm.p && Entry(s, s.current, v).perm.w && AllocFree(s, NPAGES, c).1 == -1
    ensures LoopEnds(s, CopyRange(s, c, v), live, c, v)
  {
    WalkIsEntry(s, s.current, v);
    assert EntryOk(s, s.current, v);
    AllocKeeps(s, live, live, NPAGES, c);
    SubsetViews(s, s, live, live - {c});
    assert TableOk(s, c);
  }

  /** The parent's entry as the loop looks it up; a page in use there is read-only at its own address. */
  lemma ParentEntry(s: KState, live: set<nat>, c: nat, v: nat)
    requires Midway(s, live, c, v) && v < VIRT_PAGES
    ensures c < NPROC && s.current < NPROC && TableOk(s, s.current) && PROC_PAGES <= v
    ensures Walk(s.mem, s.procs[s.current].pagetable, v) ==
      (if Entry(s, s.current, v).perm.p then Entry(s, s.current, v) else ABSENT)
    ensures Entry(s, s.current, v).perm.p ==>
      Entry(s, s.current, v).frame < NPAGES && (!Entry(s, s.current, v).perm.w ==> Entry(s, s.current, v).frame == v)
    ensures forall f :: 0 <= f < NPAGES ==> PageOk(s.pageinfo[f], live)
  {
    WalkIsEntry(s, s.current, v);
    assert EntryOk(s, s.current, v);
  }

  /** The turn the loop takes at page v, and the state it goes on from. */
  lemma TakeTurn(s: KState, live: set<nat>, c: nat, v: nat) returns (u: KState)
    requires Midway(s, live, c, v) && v < VIRT_PAGES
    requires !(Entry(s, s.current, v).perm.p && Entry(s, s.current, v).perm.w && AllocFree(s, NPAGES, c).1 == -1)
    ensures Midway(u, live, c, v + 1) && Turn(s, u, live, c, v)
    ensures CopyRange(s, c, v) == CopyRange(u, c, v + 1)
  {
    hide Midway, Turn, TableOk, MapPage;
    ParentEntry(s, live, c, v);
    var e := Walk(s.mem, s.procs[s.current].pagetable, v);
    if e.perm.p && e.perm.w {
      var (s1, f) := AllocFree(s, NPAGES, c);
      CopyTurn(s, live, c, v, s1, f);
      u := CopyPage(s1, c, v, e.frame, f, e.perm).state;
    } else if e.perm.p && Shareable(s.pageinfo, e.frame) {
      ShareTurn(s, live, c, v);
      u := SharePage(s, c, v, e.frame).state;
    } else {
      SkipTurn(s, live, c, v);
      u := s;
    }
  }

  // ---------------------------------------------------------------- the whole call

  ghost function Live(s: KState): set<nat> {
    set p: nat | 1 <= p < NPROC && !s.procs[p].state.Free?
  }

  /** The invariant of every reachable state. */
  ghost predicate Inv(s: KState) {
    && Core(s, Live(s), Live(s)) && s.procs[0].state.Free?
    && forall i :: 0 <= i < NPROC ==> s.procs[i].pid == i
  }

  lemma ExitLive(s: KState, pid: nat)
    requires 1 <= pid < NPROC
    ensures Live(Exit(s, pid)) == Live(s) - {pid}
  {}

  /** The state in which fork starts its loop. */
  ghost predicate Claimed(s: KState, t: KState, slot: nat) {
    && 1 <= slot < NPROC
    && t.procs == s.procs[slot := s.procs[slot].(pid := slot, state := Runnable, pagetable := t.procs[slot].pagetable)]
    && t.current == s.current && t.kpt == s.kpt
  }

  lemma ClaimKeeps(s: KState, slot: nat)
    requires Inv(s) && s.current in Live(s) && 1 <= slot < NPROC && s.procs[slot].state.Free?
    ensures var t := Claim(s, slot);
            && Core(t, Live(s) + {slot}, Live(s)) && SameViews(s, t, Live(s)) && Claimed(s, t, slot)
            && (forall f :: 0 <= f < NPAGES ==> t.pageinfo[f].refcount <= |Live(s)|)
            && 2 <= |Live(s) + {slot}|
  {
    var live := Live(s);
    LiveGrows(s, live, live, slot);
    ProcsKeep(s, live + {slot}, live, Claim(s, slot));
    forall f | 0 <= f < NPAGES ensures s.pageinfo[f].refcount <= |live| {
      assert PageOk(s.pageinfo[f], live);
      SubsetSize({s.current}, live);
    }
    SubsetSize({s.current, slot}, live + {slot});
  }

  /** fork could not build its child: everything is as before, except for the return value. */
  ghost predicate RolledBack(s: KState, t: KState, slot: nat) {
    && s.current < NPROC && 1 <= slot < NPROC
    && (forall f :: 0 <= f < NPAGES ==> t.pageinfo[f].owner == s.pageinfo[f].owner)
    && (forall f :: 0 <= f < NPAGES && s.pageinfo[f].owner != PO_FREE ==> t.mem[f] == s.mem[f])
    && SameViews(s, t, Live(s)) && Live(t) == Live(s)
    && t.current == s.current && t.kpt == s.kpt
    && t.procs == s.procs[slot := t.procs[slot]]
                         [s.current := s.procs[s.current].(regs := s.procs[s.current].regs.(eax := EAX_ERROR))]
    && t.procs[slot].state.Free? && t.procs[slot].pid == slot
  }

  /** The descriptors after a failed fork. */
  lemma FailedDescriptors(s: KState, t: KState, slot: nat)
    requires Claimed(s, t, slot) && s.procs[slot].state.Free? && slot != s.current && s.procs[0].state.Free?
    ensures var u := Exit(SetEax(t, t.current, EAX_ERROR), slot);
            && Live(u) == Live(s)
            && u.procs == s.procs[slot := u.procs[slot]]
                                 [s.current := s.procs[s.current].(regs := s.procs[s.current].regs.(eax := EAX_ERROR))]
            && u.procs[slot].state.Free? && u.procs[slot].pid == slot && u.procs[0].state.Free?
            && u.current == s.current && u.kpt == s.kpt
  {}

  /** The pages after a failed fork: the child's are free, the contents stay. */
  lemma FailedPages(t: KState, slot: nat)
    requires 1 <= slot < NPROC
    ensures var u := Exit(SetEax(t, t.current, EAX_ERROR), slot);
            && u.mem == t.mem
            && forall f :: 0 <= f < NPAGES ==>
                 u.pageinfo[f].owner == if t.pageinfo[f].owner == slot then PO_FREE else t.pageinfo[f].owner
  {}

  /** The page tables after a failed fork. */
  lemma FailedTables(s: KState, t: KState, slot: nat, tabled: set<nat>)
    requires slot < NPROC && slot !in Live(s) && Core(t, Live(s) + {slot}, tabled) && tabled - {slot} == Live(s)
    requires SameViews(s, t, Live(s))
    ensures var u := Exit(SetEax(t, t.current, EAX_ERROR), slot);
            Core(u, Live(s), Live(s)) && SameViews(s, u, Live(s))
  {
    hide Core, SameViews, Exit;
    var t1 := SetEax(t, t.current, EAX_ERROR);
    CoreBounds(t, Live(s) + {slot}, tabled);
    ProcsKeep(t, Live(s) + {slot}, tabled, t1);
    ExitKeeps(t1, Live(s) + {slot}, tabled, slot);
    assert Live(s) + {slot} - {slot} == Live(s);
    SubsetViews(t, t1, tabled, Live(s));
    SameViewsTrans(s, t, t1, Live(s));
    SameViewsTrans(s, t1, Exit(t1, slot), Live(s));
  }

  /** Undo: whatever a half-built child took goes back. */
  lemma FailureRollsBack(s: KState, t: KState, slot: nat, tabled: set<nat>)
    requires Inv(s) && s.current in Live(s) && 1 <= slot < NPROC && s.procs[slot].state.Free?
    requires Claimed(s, t, slot) && Core(t, Live(s) + {slot}, tabled) && tabled - {slot} == Live(s)
    requires SameViews(s, t, Live(s))
    requires forall f :: 0 <= f < NPAGES && s.pageinfo[f].owner == PO_FREE ==> t.pageinfo[f].owner in {PO_FREE, slot}
    requires forall f :: 0 <= f < NPAGES && s.pageinfo[f].owner != PO_FREE ==>
               t.pageinfo[f].owner == s.pageinfo[f].owner && t.mem[f] == s.mem[f]
    ensures ForkFailed(t, slot).Done? && ForkFailed(t, slot).ret == -1
    ensures RolledBack(s, ForkFailed(t, slot).state, slot) && Inv(ForkFailed(t, slot).state)
  {
    hide Core, SameViews, Exit, SetEax, Live, Claimed;
    var u := Exit(SetEax(t, t.current, EAX_ERROR), slot);
    SlotIsFree(s, t, slot);
    FailedDescriptors(s, t, slot);
    FailedTables(s, t, slot, tabled);
    FailedOwners(s, t, slot);
    assert forall i :: 0 <= i < NPROC ==> u.procs[i].pid == i;
  }

  lemma SlotIsFree(s: KState, t: KState, slot: nat)
    requires Inv(s) && s.current in Live(s) && 1 <= slot < NPROC && s.procs[slot].state.Free?
    requires Claimed(s, t, slot)
    ensures slot !in Live(s) && s.current != slot
  {
    hide Core;
  }

  /** Every page has its owner back, and pages in use their contents. */
  lemma FailedOwners(s: KState, t: KState, slot: nat)
    requires Inv(s) && 1 <= slot < NPROC && slot !in Live(s)
    requires forall f :: 0 <= f < NPAGES && s.pageinfo[f].owner == PO_FREE ==> t.pageinfo[f].owner in {PO_FREE, slot}
    requires forall f :: 0 <= f < NPAGES && s.pageinfo[f].owner != PO_FREE ==>
               t.pageinfo[f].owner == s.pageinfo[f].owner && t.mem[f] == s.mem[f]
    ensures var u := Exit(SetEax(t, t.current, EAX_ERROR), slot);
      forall f :: 0 <= f < NPAGES ==>
        u.pageinfo[f].owner == s.pageinfo[f].owner && (s.pageinfo[f].owner != PO_FREE ==> u.mem[f] == s.mem[f])
  {
    hide Core, Exit, SetEax, Live;
    FailedPages(t, slot);
    CoreBounds(s, Live(s), Live(s));
    forall f | 0 <= f < NPAGES ensures s.pageinfo[f].owner != slot {
      assert PageOk(s.pageinfo[f], Live(s));
    }
  }

  /** fork built its child. */
  ghost predicate Forked(s: KState, t: KState, slot: nat) {
    && s.current in Live(s) && s.current < NPROC && 1 <= slot < NPROC && slot !in Live(s)
    && t.procs == s.procs[slot := Proc(slot, s.procs[s.current].regs.(eax := 0), Runnable, t.procs[slot].pagetable)]
                         [s.current := s.procs[s.current].(regs := s.procs[s.current].regs.(eax := slot))]
    && t.current == s.current && t.kpt == s.kpt
    && SameViews(s, t, Live(s)) && Live(t) == Live(s) + {slot}
    && InheritsFrom(s, t, slot, PROC_PAGES)
    && (forall x :: 0 <= x < NENTRIES && !(PROC_PAGES <= x < VIRT_PAGES) ==> Entry(t, slot, x) == LowEntry(x))
    && (forall f :: 0 <= f < NPAGES ==>
          if s.pageinfo[f].owner == PO_FREE then t.pageinfo[f].owner in {PO_FREE, slot}
          else t.pageinfo[f].owner == s.pageinfo[f].owner && t.mem[f] == s.mem[f])
  }

  lemma ForkStart(s: KState, slot: nat, s2: KState, pt: int)
    requires Inv(s) && s.current in Live(s) && 1 <= slot < NPROC && s.procs[slot].state.Free?
    requires (s2, pt) == CopyPagetable(Claim(s, slot), slot)
    ensures Claimed(s, s2, slot) && Core(s2, Live(s) + {slot}, Live(s)) && SameViews(s, s2, Live(s))
    ensures Grown(s, s2, slot)
    ensures pt != -1 ==>
              && 0 <= pt < NPAGES
              && var s3 := SetPagetable(s2, slot, pt);
                 && Claimed(s, s3, slot) && SameViews(s, s3, Live(s)) && Grown(s, s3, slot)
                      && Midway(s3, Live(s) + {slot}, slot, PROC_PAGES)
                 && forall v :: 0 <= v < NENTRIES ==> Entry(s3, slot, v) == LowEntry(v)
  {
    hide Core, SameViews;
    var s1 := Claim(s, slot);
    var live := Live(s) + {slot};
    ClaimKeeps(s, slot);
    NewTables(s1, live, Live(s), slot, s2, pt);
    SameViewsTrans(s, s1, s2, Live(s));
    if pt != -1 {
      var s3 := SetPagetable(s2, slot, pt);
      SameViewsTrans(s, s1, s3, Live(s));
      assert |live| == |Live(s)| + 1;
      forall f | 0 <= f < NPAGES ensures s3.pageinfo[f].refcount < |live| {
        assert s1.pageinfo[f].refcount <= |Live(s)| && Grown(s1, s2, slot) && s3.pageinfo == s2.pageinfo;
      }
      assert Live(s) + {slot} == live;
    }
  }

  /** What the loop built, and the registers of both processes. */
  lemma ForkBuilt(s: KState, s3: KState, t: KState, slot: nat)
    requires Inv(s) && s.current in Live(s) && 1 <= slot < NPROC && s.procs[slot].state.Free?
    requires Claimed(s, s3, slot) && SameViews(s, s3, Live(s)) && Midway(s3, Live(s) + {slot}, slot, PROC_PAGES)
    requires forall v :: 0 <= v < NENTRIES ==> Entry(s3, slot, v) == LowEntry(v)
    requires Grown(s, s3, slot)
    requires Grew(s3, t, Live(s) + {slot}, slot, PROC_PAGES) && InheritsFrom(s3, t, slot, PROC_PAGES)
    ensures Forked(s, ForkRegisters(t, slot), slot) && Inv(ForkRegisters(t, slot))
  {
    hide Core, SameViews, InheritsFrom, ForkRegisters, Midway, Live;
    var live := Live(s) + {slot};
    var u := ForkRegisters(t, slot);
    MidwayFacts(s3, live, slot, PROC_PAGES);
    ForkedDescriptors(s, s3, t, slot);
    ForkedTables(s, s3, t, slot);
    ForkInheritance(s, s3, t, u, slot);
    BuiltFromStart(s, s3, t, slot);
    forall x | 0 <= x < NENTRIES && !(PROC_PAGES <= x < VIRT_PAGES) ensures Entry(u, slot, x) == LowEntry(x) {
      assert Entry(u, slot, x) == Entry(t, slot, x);
    }
  }

  /** The descriptors after a successful fork. */
  lemma ForkedDescriptors(s: KState, s3: KState, t: KState, slot: nat)
    requires Claimed(s, s3, slot) && s.procs[slot].state.Free? && s.current in Live(s)
    requires t.procs == s3.procs && t.current == s3.current && t.kpt == s3.kpt
    ensures var u := ForkRegisters(t, slot);
            && Live(u) == Live(s) + {slot} && slot !in Live(s)
            && u.procs == s.procs[slot := Proc(slot, s.procs[s.current].regs.(eax := 0), Runnable,
                 u.procs[slot].pagetable)]
                                 [s.current := s.procs[s.current].(regs := s.procs[s.current].regs.(eax := slot))]
            && u.current == s.current && u.kpt == s.kpt && u.mem == t.mem && u.pageinfo == t.pageinfo
  {}

  /** The page tables after a successful fork. */
  lemma ForkedTables(s: KState, s3: KState, t: KState, slot: nat)
    requires Core(t, Live(s) + {slot}, Live(s) + {slot}) && 1 <= slot < NPROC && slot !in Live(s)
    requires SameViews(s, s3, Live(s)) && SameViews(s3, t, Live(s) + {slot} - {slot})
    ensures var u := ForkRegisters(t, slot);
            Core(u, Live(s) + {slot}, Live(s) + {slot}) && SameViews(s, u, Live(s)) && SameView(t, u, slot)
  {
    hide Core, SameViews, Live;
    var live := Live(s) + {slot};
    var u := ForkRegisters(t, slot);
    CoreBounds(t, live, live);
    ProcsKeep(t, live, live, u);
    ViewOf(t, u, live, slot);
    assert live - {slot} == Live(s);
    SubsetViews(t, u, live, Live(s));
    SameViewsTrans(s, s3, t, Live(s));
    SameViewsTrans(s, t, u, Live(s));
  }

  lemma ViewOf(s: KState, t: KState, live: set<nat>, p: nat)
    requires SameViews(s, t, live) && p in live
    ensures SameView(s, t, p)
  {}

  /** Inheritance counted from the state before fork. */
  lemma ForkInheritance(s: KState, s3: KState, t: KState, u: KState, slot: nat)
    requires Core(s, Live(s), Live(s)) && s.current in Live(s) && s3.current == s.current && u.current == s.current
    requires SameViews(s, s3, Live(s)) && Grown(s, s3, slot) && TableOk(s3, s.current) && slot < NPROC
    requires InheritsFrom(s3, t, slot, PROC_PAGES) && SameView(t, u, slot) && u.mem == t.mem && u.pageinfo == t.pageinfo
    ensures InheritsFrom(s, u, slot, PROC_PAGES)
  {
    var p := s.current;
    assert SameView(s, s3, p);
    forall x | PROC_PAGES <= x < VIRT_PAGES ensures Inherits(s, u, p, slot, x) {
      assert EntryOk(s, p, x) && Inherits(s3, t, p, slot, x);
      assert Entry(s3, p, x) == Entry(s, p, x) && Entry(u, slot, x) == Entry(t, slot, x);
    }
    forall x, y | PROC_PAGES <= x < y < VIRT_PAGES ensures OwnCopies(s, u, slot, x, y) {
      assert OwnCopies(s3, t, slot, x, y);
      assert Entry(s3, p, x) == Entry(s, p, x) && Entry(s3, p, y) == Entry(s, p, y);
      assert Entry(u, slot, x) == Entry(t, slot, x) && Entry(u, slot, y) == Entry(t, slot, y);
    }
  }

  /** Every outcome of fork. */
  lemma ForkOutcome(s: KState)
    requires Inv(s) && s.current in Live(s)
    ensures Fork(s).Done? && Inv(Fork(s).state)
    ensures var slot := FreeSlot(s.procs, 1);
            if slot == -1 then Fork(s) == Done(s, -1)
            else if Fork(s).ret == -1 then RolledBack(s, Fork(s).state, slot)
            else Fork(s).ret == slot && Forked(s, Fork(s).state, slot)
  {
    hide Core, SameViews, InheritsFrom, Forked, RolledBack, CopyRange, CopyPagetable, ForkRegisters;
    var slot := FreeSlot(s.procs, 1);
    if slot != -1 {
      var (s2, pt) := CopyPagetable(Claim(s, slot), slot);
      ForkStart(s, slot, s2, pt);
      if pt == -1 {
        assert Live(s) - {slot} == Live(s);
        FailureRollsBack(s, s2, slot, Live(s));
      } else {
        var live := Live(s) + {slot};
        var s3 := SetPagetable(s2, slot, pt);
        CopyRangeBuilds(s3, live, slot, PROC_PAGES);
        var t := CopyRange(s3, slot, PROC_PAGES).state;
        if CopyRange(s3, slot, PROC_PAGES).ret == -1 {
          assert live - {slot} == Live(s);
          SameViewsTrans(s, s3, t, Live(s));
          BuiltFromStart(s, s3, t, slot);
          FailureRollsBack(s, t, slot, live);
        } else {
          ForkBuilt(s, s3, t, slot);
        }
      }
    }
  }

  /** The pages in use before fork are untouched by the whole loop. */
  lemma BuiltFromStart(s: KState, s3: KState, t: KState, slot: nat)
    requires Inv(s) && slot !in Live(s) && 1 <= slot < NPROC && TableOk(s3, slot)
    requires Grown(s, s3, slot) && Built(s3, t, slot, Level2(s3, slot))
    ensures forall f :: 0 <= f < NPAGES && s.pageinfo[f].owner == PO_FREE ==> t.pageinfo[f].owner in {PO_FREE, slot}
    ensures forall f :: 0 <= f < NPAGES && s.pageinfo[f].owner != PO_FREE ==>
              t.pageinfo[f].owner == s.pageinfo[f].owner && t.mem[f] == s.mem[f]
  {
    hide Core;
    CoreBounds(s, Live(s), Live(s));
    forall f | 0 <= f < NPAGES
      ensures s.pageinfo[f].owner == PO_FREE ==> t.pageinfo[f].owner in {PO_FREE, slot}
      ensures s.pageinfo[f].owner != PO_FREE ==> t.pageinfo[f].owner == s.pageinfo[f].owner && t.mem[f] == s.mem[f]
    {
      assert PageOk(s.pageinfo[f], Live(s));
    }
  }
}
