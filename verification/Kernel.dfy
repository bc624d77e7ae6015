/**
 * The kernel as the program it is: global arrays updated in place by loops
 * (pset6/kernel.c, pset6/k-hardware.c, pset6/k-loader.c), each operation proved to
 * compute the state that KernelSpec gives for it.
 */
module KernelCode {
  import opened Common
  import opened Machine
  import opened Paging
  import opened KernelSpec
  import opened KernelInvariant
  import opened KernelFork
  import opened KernelAnchors
  import opened KernelSteps
  import opened KernelBoot
  import opened KernelRuns
  import opened KernelStart
  import opened KernelBooting

  /** Identity-mapping the pages [v, v + n) of a table sets exactly these entries. */
  lemma {:induction false} MapIdentity(mem: seq<Page>, pt: nat, l2: nat, v: nat, n: nat, perm: Perm, page: Page)
    requires pt < |mem| && l2 < |mem| && v + n <= NENTRIES && perm.p
    requires forall i :: 0 <= i < NENTRIES ==> page[i] == if v <= i < v + n then Word(i, perm) else mem[l2][i]
    ensures MapPages(mem, pt, 0, l2, v, v, n, perm) == Some(mem[l2 := page])
    decreases n
  {
    if n == 0 {
      assert page == mem[l2];
      assert mem[l2 := page] == mem;
    } else {
      assert L1Index(v) == 0 && L2Index(v) == v;
      var next := PutEntry(mem, l2, v, Word(v, perm));
      MapIdentity(next, pt, l2, v + 1, n - 1, perm, page);
      assert next[l2 := page] == mem[l2 := page];
    }
  }

  /** A level-2 table after low memory was closed to user code and the console opened. */
  function CloseLow(page: Page): Page {
    seq(NENTRIES, i requires 0 <= i < NENTRIES => if i < PROC_PAGES then LowEntry(i) else page[i])
  }

  function KernelOnlyLow(page: Page): Page {
    seq(NENTRIES, i requires 0 <= i < NENTRIES => if i < PROC_PAGES then Word(i, PW) else page[i])
  }

  lemma LowMapping(mem: seq<Page>, l1: nat, l2: nat)
    requires |mem| == NPAGES && l1 < NPAGES && l2 < NPAGES && l1 != l2 && mem[l1] == RootPage(l2)
    ensures MapRange(mem, l1, 0, 0, PROC_PAGES * PAGESIZE, PW) == Some(mem[l2 := KernelOnlyLow(mem[l2])])
  {
    var page := KernelOnlyLow(mem[l2]);
    var first := PutEntry(mem, l2, 0, Word(0, PW));
    assert L1Index(0) == 0 && L2Index(0) == 0;
    MapIdentity(first, l1, l2, 1, PROC_PAGES - 1, PW, page);
    assert MapPages(mem, l1, -1, 0, 0, 0, PROC_PAGES, PW) == MapPages(first, l1, 0, l2, 1, 1, PROC_PAGES - 1, PW);
    assert first[l2 := page] == mem[l2 := page];
  }

  lemma ConsoleMapping(m: seq<Page>, l1: nat, l2: nat)
    requires |m| == NPAGES && l1 < NPAGES && l2 < NPAGES && l1 != l2 && m[l1] == RootPage(l2)
    ensures MapRange(m, l1, CONSOLE * PAGESIZE, CONSOLE * PAGESIZE, PAGESIZE, PWU) ==
      Some(m[l2 := m[l2][CONSOLE := Word(CONSOLE, PWU)]])
  {
    assert L1Index(CONSOLE) == 0 && L2Index(CONSOLE) == CONSOLE;
    assert MapPages(m, l1, -1, 0, CONSOLE, CONSOLE, 1, PWU)
        == MapPages(PutEntry(m, l2, CONSOLE, Word(CONSOLE, PWU)), l1, 0, l2, CONSOLE + 1, CONSOLE + 1, 0, PWU);
  }

  /** The two mappings at the end of copy_pagetable, and in kernel(), do just that. */
  lemma LowMappings(mem: seq<Page>, l1: nat, l2: nat)
    requires |mem| == NPAGES && l1 < NPAGES && l2 < NPAGES && l1 != l2 && mem[l1] == RootPage(l2)
    ensures var r := MapRange(mem, l1, 0, 0, PROC_PAGES * PAGESIZE, PW);
            r.Some? && MapRange(r.value, l1, CONSOLE * PAGESIZE, CONSOLE * PAGESIZE, PAGESIZE, PWU) ==
                Some(mem[l2 := CloseLow(mem[l2])])
  {
    hide MapRange, RootPage;
    LowMapping(mem, l1, l2);
    var m := mem[l2 := KernelOnlyLow(mem[l2])];
    ConsoleMapping(m, l1, l2);
    assert m[l2 := CloseLow(mem[l2])] == mem[l2 := CloseLow(mem[l2])];
    assert KernelOnlyLow(mem[l2])[CONSOLE := Word(CONSOLE, PWU)] == CloseLow(mem[l2]);
  }

  /** A level-2 table that maps all of physical memory to itself. */
  function AllOfMemory(): Page {
    seq(NENTRIES, i requires 0 <= i < NENTRIES => if i < NPAGES then Word(i, PWU) else ABSENT)
  }

  /** virtual_memory_init's mapping fills an empty table with exactly these entries. */
  lemma FullMapping(mem: seq<Page>, l1: nat, l2: nat)
    requires |mem| == NPAGES && l1 < NPAGES && l2 < NPAGES && l1 != l2 && mem[l1] == RootPage(l2)
    requires mem[l2] == ZeroPage()
    ensures MapRange(mem, l1, 0, 0, NPAGES * PAGESIZE, PWU) == Some(mem[l2 := AllOfMemory()])
  {
    var first := PutEntry(mem, l2, 0, Word(0, PWU));
    assert L1Index(0) == 0 && L2Index(0) == 0;
    MapIdentity(first, l1, l2, 1, NPAGES - 1, PWU, AllOfMemory());
    assert MapPages(mem, l1, -1, 0, 0, 0, NPAGES, PWU) == MapPages(first, l1, 0, l2, 1, 1, NPAGES - 1, PWU);
    assert first[l2 := AllOfMemory()] == mem[l2 := AllOfMemory()];
  }

  // What the methods below need to know about the states they pass through.

  lemma EntryInRam(s: KState, live: set<nat>, c: nat, v: nat)
    requires Midway(s, live, c, v) && v < VIRT_PAGES
    ensures Entry(s, s.current, v).perm.p ==> Entry(s, s.current, v).frame < NPAGES
  {
    assert EntryOk(s, s.current, v);
  }

  lemma NoPageLeft(s: KState, live: set<nat>, c: nat, v: nat)
    requires Midway(s, live, c, v) && v < VIRT_PAGES
    requires Entry(s, s.current, v).perm.p && Entry(s, s.current, v).perm.w && AllocFree(s, NPAGES, c).1 == -1
    ensures CopyRange(s, c, v) == Done(s, -1) && KernelTableOk(s)
  {
    WalkIsEntry(s, s.current, v);
    EntryInRam(s, live, c, v);
  }

  lemma LiveFacts(s: KState)
    requires Inv(s) && s.current in Live(s)
    ensures s.current < NPROC && TableOk(s, s.current) && s.mem[s.procs[s.current].pagetable][0].frame < NPAGES
    ensures 0 < s.current && forall p :: p in Live(s) ==> p < NPROC && !s.procs[p].state.Free?
  {}

  lemma StartFork(s: KState, slot: nat, s2: KState, pt: int)
    requires Inv(s) && s.current in Live(s) && 1 <= slot < NPROC && s.procs[slot].state.Free?
    requires (s2, pt) == CopyPagetable(Claim(s, slot), slot)
    ensures KernelTableOk(s2)
    ensures pt != -1 ==> 0 <= pt < NPAGES && Midway(SetPagetable(s2, slot, pt), Live(s) + {slot}, slot, PROC_PAGES)
  {
    ForkStart(s, slot, s2, pt);
  }

  lemma CopyRangeDone(s: KState, slot: nat)
    requires slot < NPROC
    ensures CopyRange(s, slot, VIRT_PAGES) == Done(s, 0)
  {}

  lemma TrapFacts(s: KState)
    requires Good(s)
    ensures s.procs[s.current].pid == s.current && s.current in Live(s) && KernelTableOk(s)
  {}

  lemma SavedRegisters(s: KState, regs: Registers)
    requires Good(s)
    ensures Good(Saved(s, regs))
  {
    DescriptorsKeep(s, Saved(s, regs));
  }

  /** How an entry into the kernel ends. */
  datatype Outcome = Continues | Spins | Panics

  ghost predicate Matches(r: Result, out: Outcome, s: KState) {
    match out
    case Continues => r.Done? && r.state == s
    case Spins => r == Idle(s)
    case Panics => r.Panic?
  }

  class Kernel {
    const pageinfo: array<PageInfo>
    const processes: array<Proc>
    const mem: array<Page>
    const kernelPagetable: nat
    const at: Layout
    var current: nat

    ghost predicate Valid()
      reads this, processes
    {
      && pageinfo.Length == NPAGES && processes.Length == NPROC && mem.Length == NPAGES
      && current < NPROC && kernelPagetable < NPAGES
      && forall i :: 0 <= i < NPROC ==> processes[i].pagetable < NPAGES
    }

    /** The machine state the arrays hold. */
    ghost function View(): KState
      requires Valid()
      reads this, pageinfo, processes, mem
    {
      Globals(pageinfo[..], processes[..], mem[..], current, kernelPagetable)
    }

    /** The machine as it is switched on, with the kernel in memory. */
    constructor (at: Layout, ram: seq<Page>)
      requires |ram| == NPAGES
      ensures Valid() && this.at == at && kernelPagetable == at.kpt && mem[..] == ram && current == 0
      ensures fresh(pageinfo) && fresh(processes) && fresh(mem)
    {
      this.at, kernelPagetable, current := at, at.kpt, 0;
      pageinfo := new PageInfo[NPAGES](i => PageInfo(PO_FREE, 0));
      processes := new Proc[NPROC](i => Proc(0, NO_REGISTERS, Free, 0));
      mem := new Page[NPAGES](i requires 0 <= i < |ram| => ram[i]);
    }

    method FindFreePage() returns (addr: nat)
      requires Valid()
      ensures addr == FreeAddress(pageinfo[..], NPAGES)
    {
      addr := FindFreeBelow(NPAGES);
    }

    method FindFreePageTable() returns (addr: nat)
      requires Valid()
      ensures addr == FreeAddress(pageinfo[..], PROC_PAGES)
    {
      addr := FindFreeBelow(PROC_PAGES);
    }

    /** The scan both searches share; the first free page wins. */
    method FindFreeBelow(limit: nat) returns (addr: nat)
      requires Valid() && limit <= NPAGES
      ensures addr == FreeAddress(pageinfo[..], limit)
    {
      for i := 0 to limit
        invariant FirstFree(pageinfo[..], 0, limit) == FirstFree(pageinfo[..], i, limit)
      {
        if pageinfo[i].owner == PO_FREE {
          return i * PAGESIZE;
        }
      }
      return NOADDR;
    }

    method PhysicalPageAlloc(addr: nat, owner: int) returns (r: int)
      requires Valid()
      modifies pageinfo
      ensures Valid() && r == if Allocatable(old(pageinfo[..]), addr) then 0 else -1
      ensures View() == if r == 0 then Grab(old(View()), PageNumber(addr), owner) else old(View())
    {
      if PageOffset(addr) != 0 || addr >= NPAGES * PAGESIZE || pageinfo[PageNumber(addr)].refcount != 0 {
        return -1;
      }
      pageinfo[PageNumber(addr)] := PageInfo(owner, 1);
      return 0;
    }

    method VirtualMemoryLookup(pt: nat, va: nat) returns (vam: VaMapping)
      requires Valid() && pt < NPAGES && va < 0x1_0000_0000
      ensures vam == Lookup(mem[..], pt, va)
    {
      var pe := mem[pt][L1Index(PageNumber(va))];
      if pe.perm.p && pe.frame < NPAGES {
        var l2 := mem[pe.frame][L2Index(PageNumber(va))];
        pe := Mask(pe, l2);
        if pe.perm.p {
          return VaMapping(pe.frame, pe.frame * PAGESIZE + PageOffset(va), pe.perm);
        }
      }
      return UNMAPPED;
    }

    /** `ok` is false when an assertion of the function fails, which stops the machine. */
    method VirtualMemoryMap(pt: nat, va: nat, pa: nat, sz: nat, perm: Perm) returns (ok: bool)
      requires Valid() && pt < NPAGES
      modifies mem
      ensures Valid()
      ensures MapRange(old(mem[..]), pt, va, pa, sz, perm) == if ok then Some(mem[..]) else None
    {
      if !MapRequestOk(va, pa, sz, perm) {
        return false;
      }
      var vpn: nat, ppn: nat, n: nat := PageNumber(va), PageNumber(pa), PageNumber(sz);
      var l1pageindex: int, l2pagetable: nat := -1, 0;
      while n != 0
        invariant vpn + n <= L1_PAGES
        invariant MapPages(mem[..], pt, l1pageindex, l2pagetable, vpn, ppn, n, perm)
               == MapRange(old(mem[..]), pt, va, pa, sz, perm)
        decreases n
      {
        if L1Index(vpn) != l1pageindex {
          l1pageindex := L1Index(vpn);
          var l1pte := mem[pt][l1pageindex];
          if !Admits(l1pte, perm) {
            return false;
          }
          l2pagetable := l1pte.frame;
        }
        if l2pagetable < NPAGES {
          mem[l2pagetable] := mem[l2pagetable][L2Index(vpn) := NewEntry(ppn, perm)];
        }
        vpn, ppn, n := vpn + 1, ppn + 1, n - 1;
      }
      return true;
    }

    /** Find a page below `limit` and allocate it, as copy_pagetable and fork do. */
    method TakeFreePage(limit: nat, owner: int) returns (f: int)
      requires Valid() && limit in {PROC_PAGES, NPAGES}
      modifies pageinfo
      ensures Valid() && (View(), f) == AllocFree(old(View()), limit, owner) && -1 <= f < limit
    {
      var addr: nat;
      if limit == NPAGES {
        addr := FindFreePage();
      } else {
        addr := FindFreePageTable();
      }
      var k := FirstFree(pageinfo[..], 0, limit);
      assert PageOffset(NOADDR) != 0;
      assert k >= 0 ==> PageNumber(k * PAGESIZE) == k && PageOffset(k * PAGESIZE) == 0;
      var r := PhysicalPageAlloc(addr, owner);
      if r == -1 {
        return -1;
      }
      return PageNumber(addr);
    }

    /** Returns the frame of the new level-1 table, or -1. */
    method NewPagetable(source: nat, owner: int) returns (pt: int)
      requires Valid() && source < NPAGES && mem[source][0].frame < NPAGES
      modifies pageinfo, mem
      ensures Valid() && (View(), pt) == CopyPagetable(old(View()), owner) && -1 <= pt < PROC_PAGES
    {
      var l1 := TakeFreePage(PROC_PAGES, owner);
      if l1 == -1 {
        return -1;
      }
      var l2 := TakeFreePage(PROC_PAGES, owner);
      if l2 == -1 {
        return -1;
      }
      InitTables(l1, l2, mem[source][0].frame);
      return l1;
    }

    /** Clear both tables, link them, copy the kernel's entries and map low memory. */
    method InitTables(l1: nat, l2: nat, sourceLevel2: nat)
      requires Valid() && l1 < NPAGES && l2 < NPAGES && l1 != l2 && sourceLevel2 < NPAGES
      modifies mem
      ensures Valid() && mem[..] == old(mem[..])[l1 := RootPage(l2)][l2 := LowPage()]
    {
      mem[l1] := ZeroPage();
      mem[l2] := ZeroPage();
      mem[l1] := mem[l1][0 := Word(l2, PWU)];
      for i := 0 to PROC_PAGES
        invariant forall f :: 0 <= f < NPAGES && f != l2 ==> mem[f] == if f == l1 then RootPage(l2) else old(mem[f])
        invariant forall j :: PROC_PAGES <= j < NENTRIES ==> mem[l2][j] == ABSENT
      {
        mem[l2] := mem[l2][i := mem[sourceLevel2][i]];
      }
      ghost var middle := mem[..];
      LowMappings(middle, l1, l2);
      var ok := VirtualMemoryMap(l1, 0, 0, PROC_PAGES * PAGESIZE, PW);
      assert ok;
      ok := VirtualMemoryMap(l1, CONSOLE * PAGESIZE, CONSOLE * PAGESIZE, PAGESIZE, PWU);
      assert CloseLow(middle[l2]) == LowPage();
      assert ok && mem[..] == middle[l2 := LowPage()];
    }

    /** virtual_memory_init; the level-2 table l2 is static storage, cleared at load time. */
    method VirtualMemoryInit(l2: nat)
      requires Valid() && l2 < NPAGES && l2 != kernelPagetable && mem[l2] == ZeroPage()
      modifies mem
      ensures Valid() && mem[..] == old(mem[..])[kernelPagetable := RootPage(l2)][l2 := AllOfMemory()]
    {
      mem[kernelPagetable] := ZeroPage();
      mem[kernelPagetable] := mem[kernelPagetable][0 := Word(l2, PWU)];
      ghost var middle := mem[..];
      FullMapping(middle, kernelPagetable, l2);
      var ok := VirtualMemoryMap(kernelPagetable, 0, 0, NPAGES * PAGESIZE, PWU);
      assert ok && mem[..] == middle[l2 := AllOfMemory()];
    }

    /** kernel()'s two mappings: low memory is closed to user code, and the console opened. */
    method CloseLowMemory()
      requires Valid() && at.kpt == kernelPagetable && mem[at.kpt] == RootPage(at.kl2) && mem[at.kl2] == AllOfMemory()
      modifies mem
      ensures Valid() && mem[..] == old(mem[..])[at.kl2 := KernelLow()]
    {
      ghost var middle := mem[..];
      LowMappings(middle, at.kpt, at.kl2);
      var ok := VirtualMemoryMap(kernelPagetable, 0, 0, PROC_PAGES * PAGESIZE, PW);
      assert ok;
      ok := VirtualMemoryMap(kernelPagetable, CONSOLE * PAGESIZE, CONSOLE * PAGESIZE, PAGESIZE, PWU);
      assert CloseLow(AllOfMemory()) == KernelLow();
      assert ok && mem[..] == middle[at.kl2 := KernelLow()];
    }

    method SysExit(pid: nat)
      requires Valid() && pid < NPROC && KernelTableOk(View())
      modifies pageinfo, processes
      ensures Valid() && View() == Exit(old(View()), pid)
    {
      ghost var before := View();
      for i := 0 to NPAGES
        invariant processes[..] == before.procs && mem[..] == before.mem
        invariant forall f :: 0 <= f < NPAGES ==>
                    pageinfo[f] == if f < i then ExitPage(before.pageinfo[f], pid) else before.pageinfo[f]
      {
        KernelWalk(before, i);
        assert PageNumber(i * PAGESIZE) == i;
        var vmap := VirtualMemoryLookup(kernelPagetable, i * PAGESIZE);
        if pageinfo[vmap.pn].owner == pid {
          pageinfo[vmap.pn] := PageInfo(PO_FREE, 0);
        }
        if pageinfo[vmap.pn].refcount > 1 && pageinfo[vmap.pn].owner > 0 {
          pageinfo[vmap.pn] := PageInfo(pageinfo[vmap.pn].owner, pageinfo[vmap.pn].refcount - 1);
        }
      }
      assert pageinfo[..] == ExitPages(before.pageinfo, pid);
      processes[pid] := processes[pid].(state := Free);
      assert processes[..] == Exit(before, pid).procs;
    }

    method SetReturnValue(p: nat, v: nat)
      requires Valid() && p < NPROC
      modifies processes
      ensures Valid() && View() == SetEax(old(View()), p, v)
    {
      processes[p] := processes[p].(regs := processes[p].regs.(eax := v));
    }

    /** The body of fork's loop for page v: 0 to go on, -1 when no page is left. */
    method ForkPage(slot: nat, v: nat, ghost live: set<nat>) returns (r: int)
      requires Valid() && slot < NPROC && v < VIRT_PAGES && Midway(View(), live, slot, v)
      modifies pageinfo, mem
      ensures Valid() && r in {0, -1}
      ensures r == 0 ==>
        Midway(View(), live, slot, v + 1) && CopyRange(old(View()), slot, v) == CopyRange(View(), slot, v + 1)
      ensures r == -1 ==> KernelTableOk(View()) && CopyRange(old(View()), slot, v) == Done(View(), -1)
    {
      hide Core, KernelTableOk, Turn;
      ghost var s := View();
      MidwayFacts(s, live, slot, v);
      assert PageNumber(v * PAGESIZE) == v;
      WalkIsEntry(s, current, v);
      var vmap := VirtualMemoryLookup(processes[current].pagetable, v * PAGESIZE);
      if vmap.perm != NOPERM {
        EntryInRam(s, live, slot, v);
        if vmap.perm.w {
          var f := TakeFreePage(NPAGES, slot);
          if f == -1 {
            NoPageLeft(s, live, slot, v);
            return -1;
          }
          CopyTurn(s, live, slot, v, View(), f);
          mem[f] := mem[vmap.pn];
          var ok := VirtualMemoryMap(processes[slot].pagetable, v * PAGESIZE, f * PAGESIZE, PAGESIZE, vmap.perm);
          assert ok;
        } else if pageinfo[vmap.pn].refcount > 0 && pageinfo[vmap.pn].owner > 0 {
          ShareTurn(s, live, slot, v);
          pageinfo[vmap.pn] := PageInfo(pageinfo[vmap.pn].owner, pageinfo[vmap.pn].refcount + 1);
          var ok := VirtualMemoryMap(processes[slot].pagetable, v * PAGESIZE, vmap.pn * PAGESIZE, PAGESIZE, PU);
          assert ok;
        } else {
          SkipTurn(s, live, slot, v);
        }
      } else {
        SkipTurn(s, live, slot, v);
      }
      return 0;
    }

    /** fork gives up: the parent sees -1 and the child exits. */
    method AbandonFork(slot: nat) returns (r: int)
      requires Valid() && slot < NPROC && KernelTableOk(View())
      modifies pageinfo, processes
      ensures Valid() && ForkFailed(old(View()), slot) == Done(View(), r)
    {
      SetReturnValue(current, EAX_ERROR);
      SysExit(slot);
      return -1;
    }

    /** fork's loop over process memory: 0, or -1 when no page is left. */
    method CopyMemory(slot: nat, ghost live: set<nat>) returns (r: int)
      requires Valid() && slot < NPROC && Midway(View(), live, slot, PROC_PAGES)
      modifies pageinfo, mem
      ensures Valid() && r in {0, -1} && CopyRange(old(View()), slot, PROC_PAGES) == Done(View(), r)
      ensures r == -1 ==> KernelTableOk(View())
    {
      hide Midway, KernelTableOk, CopyRange;
      ghost var s := View();
      for v := PROC_PAGES to VIRT_PAGES
        invariant Valid() && Midway(View(), live, slot, v)
        invariant CopyRange(View(), slot, v) == CopyRange(s, slot, PROC_PAGES)
      {
        r := ForkPage(slot, v, live);
        if r == -1 {
          return;
        }
      }
      CopyRangeDone(View(), slot);
      return 0;
    }

    /** The child starts from the parent's registers; fork returns 0 there and `slot` here. */
    method GiveRegisters(slot: nat)
      requires Valid() && slot < NPROC && slot != current
      modifies processes
      ensures Valid() && View() == ForkRegisters(old(View()), slot)
    {
      processes[slot] := processes[slot].(regs := processes[current].regs);
      processes[slot] := processes[slot].(regs := processes[slot].regs.(eax := 0));
      processes[current] := processes[current].(regs := processes[current].regs.(eax := slot));
    }

    method Fork() returns (r: int)
      requires Valid() && Inv(View()) && current in Live(View())
      modifies pageinfo, processes, mem
      ensures Valid() && KernelSpec.Fork(old(View())) == Done(View(), r)
    {
      hide Core, SameViews, Midway, KernelTableOk, ForkFailed, CopyPagetable, CopyRange, Live, Inv, ForkRegisters;
      ghost var s := View();
      LiveFacts(s);
      var slot := FindSlot();
      if slot == -1 {
        return -1;
      }
      processes[slot] := processes[slot].(pid := slot, state := Runnable);
      assert View() == Claim(s, slot);
      var pt := NewPagetable(processes[current].pagetable, slot);
      StartFork(s, slot, View(), pt);
      if pt == -1 {
        r := AbandonFork(slot);
      } else {
        r := FinishFork(slot, pt, Live(s) + {slot});
      }
    }

    /** The rest of fork once the child has page tables. */
    method FinishFork(slot: nat, pt: nat, ghost live: set<nat>) returns (r: int)
      requires Valid() && slot < NPROC && pt < NPAGES && slot != current
      requires Midway(SetPagetable(View(), slot, pt), live, slot, PROC_PAGES)
      modifies pageinfo, processes, mem
      ensures Valid()
      ensures match CopyRange(SetPagetable(old(View()), slot, pt), slot, PROC_PAGES)
              case Done(t, ret) =>
                (if ret == -1 then ForkFailed(t, slot) else Done(ForkRegisters(t, slot), slot)) == Done(View(), r)
              case _ => false
    {
      hide Midway, KernelTableOk, CopyRange, ForkFailed, ForkRegisters;
      processes[slot] := processes[slot].(pagetable := pt);
      var copied := CopyMemory(slot, live);
      if copied == -1 {
        r := AbandonFork(slot);
      } else {
        GiveRegisters(slot);
        r := slot;
      }
    }

    /** The first free process slot from 1 on, or -1. */
    method FindSlot() returns (slot: int)
      requires Valid()
      ensures slot == FreeSlot(processes[..], 1)
    {
      for i := 1 to NPROC
        invariant FreeSlot(processes[..], 1) == FreeSlot(processes[..], i)
      {
        if processes[i].state.Free? {
          return i;
        }
      }
      return -1;
    }

    /** The page-allocation system call; false when virtual_memory_map refuses the address. */
    method SysPageAlloc() returns (ok: bool)
      requires Valid()
      modifies pageinfo, processes, mem
      ensures Valid()
      ensures Matches(PageAlloc(old(View())), if ok then Continues else Panics, View())
    {
      var va := processes[current].regs.eax;
      var f := TakeFreePage(NPAGES, processes[current].pid);
      if f == -1 {
        SetReturnValue(current, EAX_ERROR);
        return true;
      }
      ok := VirtualMemoryMap(processes[current].pagetable, va, f * PAGESIZE, PAGESIZE, PWU);
      if ok {
        SetReturnValue(current, 0);
      }
    }

    /** set_pagetable of the table in frame pt; false when one of its assertions fails. */
    method CheckPagetable(pt: nat) returns (ok: bool)
      requires Valid() && pt < NPAGES
      ensures ok == PagetableOk(at, View(), pt)
    {
      var vmap := VirtualMemoryLookup(pt, at.handler);
      if vmap.pa != at.handler {
        return false;
      }
      vmap := VirtualMemoryLookup(kernelPagetable, pt * PAGESIZE);
      if vmap.pa != pt * PAGESIZE {
        return false;
      }
      vmap := VirtualMemoryLookup(pt, kernelPagetable * PAGESIZE);
      if vmap.pa != kernelPagetable * PAGESIZE {
        return false;
      }
      vmap := VirtualMemoryLookup(pt, at.mapper);
      ok := vmap.pa == at.mapper;
    }

    /** run(): makes process pid current, unless one of the assertions fails. */
    method RunProcess(pid: nat) returns (out: Outcome)
      requires Valid() && pid < NPROC
      modifies this`current
      ensures Valid() && Matches(KernelSpec.RunProcess(at, old(View()), pid), out, View())
    {
      if !processes[pid].state.Runnable? {
        return Panics;
      }
      var ok := CheckPagetable(processes[pid].pagetable);
      if !ok {
        return Panics;
      }
      current := pid;
      return Continues;
    }

    /** Runs the next runnable process; with none the scheduler spins. */
    method Schedule() returns (out: Outcome)
      requires Valid()
      modifies this`current
      ensures Valid() && Matches(KernelSpec.Schedule(at, old(View())), out, View())
    {
      hide PagetableOk, KernelSpec.RunProcess;
      var pid: nat := current;
      for tries := 0 to NPROC
        invariant pid < NPROC && current == old(current)
        invariant NextRunnable(processes[..], current, NPROC) == NextRunnable(processes[..], pid, NPROC - tries)
      {
        pid := (pid + 1) % NPROC;
        if processes[pid].state.Runnable? {
          out := RunProcess(pid);
          return;
        }
      }
      return Spins;
    }

    /** The checks virtual_memory_check makes of one page table. */
    method CheckTable(pt: nat, expectedOwner: int, expectedRefcount: int) returns (ok: bool)
      requires Valid()
      ensures ok == TableCheck(View(), pt, expectedOwner, expectedRefcount)
    {
      if pt >= NPAGES || pageinfo[pt].owner != expectedOwner || pageinfo[pt].refcount != expectedRefcount {
        return false;
      }
      for pn := 0 to NENTRIES
        invariant forall i :: 0 <= i < pn && mem[pt][i].perm.p ==>
                    mem[pt][i].frame < NPAGES && pageinfo[mem[pt][i].frame] == PageInfo(expectedOwner, 1)
      {
        var pte := mem[pt][pn];
        if pte.perm.p {
          if pte.frame >= NPAGES || pageinfo[pte.frame].owner != expectedOwner || pageinfo[pte.frame].refcount != 1 {
            assert !TableCheck(View(), pt, expectedOwner, expectedRefcount);
            return false;
          }
        }
      }
      return true;
    }

    method CountKernelTableUsers() returns (n: nat)
      requires Valid()
      ensures n == KernelTableUsers(View(), 0)
    {
      n := 0;
      for pid := 0 to NPROC
        invariant n + KernelTableUsers(View(), pid) == KernelTableUsers(View(), 0)
      {
        if !processes[pid].state.Free? && processes[pid].pagetable == kernelPagetable {
          n := n + 1;
        }
      }
    }

    method VirtualMemoryCheck() returns (ok: bool)
      requires Valid()
      ensures ok == KernelSpec.VirtualMemoryCheck(View())
    {
      if !processes[0].state.Free? {
        return false;
      }
      var users := CountKernelTableUsers();
      ok := CheckTable(kernelPagetable, PO_KERNEL, 1 + users);
      if !ok {
        return;
      }
      for pid := 0 to NPROC
        invariant forall p :: 0 <= p < pid ==> ProcessCheck(View(), p)
      {
        if !processes[pid].state.Free? && processes[pid].pagetable != kernelPagetable {
          ok := CheckTable(processes[pid].pagetable, pid, 1);
          if !ok {
            assert !ProcessCheck(View(), pid);
            return;
          }
        }
      }
      for pn := 0 to NPAGES
        invariant forall f :: 0 <= f < pn ==> OwnerCheck(View(), f)
      {
        var owner := pageinfo[pn].owner;
        if pageinfo[pn].refcount > 0 && owner >= 0 && (owner >= NPROC || processes[owner].state.Free?) {
          assert !OwnerCheck(View(), pn);
          return false;
        }
      }
      return true;
    }

    /** The switch of exception(). */
    method HandleTrap(t: Trap) returns (out: Outcome)
      requires Valid() && Good(View())
      modifies this`current, pageinfo, processes, mem
      ensures Valid() && Matches(Handle(at, old(View()), t), out, View())
    {
      hide Core, KernelSpec.Fork, PageAlloc, KernelSpec.Schedule, KernelSpec.Exit, Live;
      ghost var s := View();
      TrapFacts(s);
      match t
      case SysPanic =>
        out := Panics;
      case GetPid =>
        SetReturnValue(current, processes[current].pid);
        out := Continues;
      case Yield =>
        out := Schedule();
      case Timer =>
        out := Schedule();
      case PageAllocation =>
        var ok := SysPageAlloc();
        out := if ok then Continues else Panics;
      case ForkCall =>
        var r := Fork();
        out := Continues;
      case ExitCall =>
        SysExit(processes[current].pid);
        out := Continues;
      case PageFault =>
        if UserFault(processes[current].regs) {
          processes[current] := processes[current].(state := Broken);
          out := Continues;
        } else {
          out := Panics;
        }
      case Unknown =>
        out := Panics;
    }

    method Exception(t: Trap, regs: Registers) returns (out: Outcome)
      requires Valid() && Good(View())
      modifies this`current, pageinfo, processes, mem
      ensures Valid() && Matches(KernelSpec.Exception(at, old(View()), t, regs), out, View())
    {
      hide Core, Inv, Handle, KernelSpec.VirtualMemoryCheck, KernelSpec.Schedule, KernelSpec.RunProcess, PagetableOk;
      ghost var s := View();
      processes[current] := processes[current].(regs := regs);
      SavedRegisters(s, regs);
      assert View() == Saved(s, regs);
      var ok := CheckPagetable(kernelPagetable);
      if !ok {
        return Panics;
      }
      if t != PageFault || UserFault(regs) {
        ok := VirtualMemoryCheck();
        if !ok {
          return Panics;
        }
      }
      out := HandleTrap(t);
      if out == Continues {
        if processes[current].state.Runnable? {
          out := RunProcess(current);
        } else {
          out := Schedule();
        }
      }
    }

    /** Map one page; false when an assertion of virtual_memory_map fails. */
    method MapPageOf(pid: nat, va: nat, pa: nat, perm: Perm) returns (ok: bool)
      requires Valid() && pid < NPROC
      modifies mem
      ensures Valid() && Matches(MapPage(old(View()), pid, va, pa, perm), if ok then Continues else Panics, View())
    {
      ok := VirtualMemoryMap(processes[pid].pagetable, va, pa, PAGESIZE, perm);
    }

    /** program_load_segment: allocate and map, fill, and give up write access if the segment is read-only. */
    method ProgramLoadSegment(pid: nat, seg: Segment) returns (out: Outcome, r: int)
      requires Valid() && pid < NPROC
      modifies pageinfo, mem
      ensures Valid() && Matches(LoadSegment(old(View()), pid, seg), out, View())
      ensures out == Continues ==> LoadSegment(old(View()), pid, seg) == Done(View(), r)
    {
      hide CopyImage;
      var first, end := seg.First(), seg.End();
      if first >= end {
        return Continues, 0;
      }
      out, r := AllocatePages(pid, first, end);
      if out != Continues || r != 0 {
        return;
      }
      FillPages(seg);
      if !seg.writable {
        out, r := DowngradePages(pid, first, end);
      }
    }

    method AllocatePages(pid: nat, first: nat, end: nat) returns (out: Outcome, r: int)
      requires Valid() && pid < NPROC && first <= end
      modifies pageinfo, mem
      ensures Valid() && Matches(AllocSegment(old(View()), pid, first, end), out, View())
      ensures out == Continues ==> AllocSegment(old(View()), pid, first, end) == Done(View(), r)
      ensures r in {0, -1} && out != Spins
    {
      hide MapPage, Grab;
      for v := first to end
        invariant Valid() && AllocSegment(View(), pid, v, end) == AllocSegment(old(View()), pid, first, end)
      {
        assert PageOffset(v * PAGESIZE) == 0 && PageNumber(v * PAGESIZE) == v;
        r := PhysicalPageAlloc(v * PAGESIZE, pid);
        if r < 0 {
          return Continues, -1;
        }
        var ok := MapPageOf(pid, v * PAGESIZE, v * PAGESIZE, PWU);
        if !ok {
          return Panics, -1;
        }
      }
      return Continues, 0;
    }

    /** memcpy from the beginning of the segment's first page, and memset behind. */
    method FillPages(seg: Segment)
      requires Valid() && seg.First() < seg.End() <= NPAGES
      modifies mem
      ensures Valid() && mem[..] == CopyImage(old(mem[..]), seg)
    {
      var start, n, all := seg.First() * NENTRIES, seg.Offset() + seg.filesz, seg.Offset() + seg.memsz;
      CopyWords(start, seg.src[..n]);
      ghost var copied := mem[..];
      CopyWords(start + n, seq(all - n, i => ABSENT));
      ImageIs(seg, old(mem[..]), copied, mem[..]);
    }

    /** Store words one after the other from word address `start` on. */
    method CopyWords(start: nat, words: seq<Word>)
      requires Valid() && start + |words| <= NPAGES * NENTRIES
      modifies mem
      ensures Valid() && Copied(old(mem[..]), mem[..], start, words, |words|)
    {
      for k := 0 to |words|
        invariant Copied(old(mem[..]), mem[..], start, words, k)
      {
        var a := start + k;
        mem[a / NENTRIES] := mem[a / NENTRIES][a % NENTRIES := words[k]];
      }
    }

    method DowngradePages(pid: nat, first: nat, end: nat) returns (out: Outcome, r: int)
      requires Valid() && pid < NPROC && first <= end <= NPAGES
      modifies mem
      ensures Valid() && Matches(Downgrade(old(View()), pid, first, end), out, View())
      ensures out == Continues ==> Downgrade(old(View()), pid, first, end) == Done(View(), r)
    {
      hide MapPage;
      for v := first to end
        invariant Valid() && Downgrade(View(), pid, v, end) == Downgrade(old(View()), pid, first, end)
      {
        assert PageOffset(v * PAGESIZE) == 0 && PageNumber(v * PAGESIZE) == v;
        var vmap := VirtualMemoryLookup(processes[pid].pagetable, v * PAGESIZE);
        if vmap.pn == -1 {
          return Panics, -1;
        }
        var ok := MapPageOf(pid, v * PAGESIZE, vmap.pn * PAGESIZE, PU);
        if !ok {
          return Panics, -1;
        }
      }
      return Continues, 0;
    }

    /** program_load's loop over the segments. */
    method ProgramLoad(pid: nat, segments: seq<Segment>) returns (out: Outcome, r: int)
      requires Valid() && pid < NPROC
      modifies pageinfo, mem
      ensures Valid() && Matches(LoadSegments(old(View()), pid, segments), out, View())
      ensures out == Continues ==> LoadSegments(old(View()), pid, segments) == Done(View(), r)
    {
      hide LoadSegment;
      out, r := Continues, 0;
      for i := 0 to |segments|
        invariant Valid() && LoadSegments(View(), pid, segments[i..]) == LoadSegments(old(View()), pid, segments)
      {
        out, r := ProgramLoadSegment(pid, segments[i]);
        assert segments[i..][1..] == segments[i + 1..];
        if out != Continues {
          return Panics, -1;
        }
        if r != 0 {
          return Continues, -1;
        }
      }
      return Continues, 0;
    }

    /** Sets up process `pid`; r is -1 when there was no memory for its page tables. */
    method SetUpProcess(pid: nat, prog: Program) returns (out: Outcome, r: int)
      requires Valid() && pid < NPROC && mem[kernelPagetable][0].frame < NPAGES
      modifies pageinfo, processes, mem
      ensures Valid() && Matches(ProcessSetup(old(View()), pid, prog), out, View())
      ensures out == Continues ==> ProcessSetup(old(View()), pid, prog) == Done(View(), r)
    {
      hide LoadSegments, CopyPagetable, MapPage, AllocFree;
      processes[pid] := processes[pid].(regs := INITIAL_REGISTERS);
      var pt := NewPagetable(kernelPagetable, pid);
      if pt == -1 {
        return Continues, -1;
      }
      processes[pid] := processes[pid].(pagetable := pt);
      out, r := ProgramLoad(pid, prog.segments);
      if out != Continues || r != 0 {
        return Panics, -1;
      }
      processes[pid] := processes[pid].(regs := processes[pid].regs.(eip := prog.entry, esp := VIRT_PAGES * PAGESIZE));
      var stack := TakeFreePage(NPAGES, pid);
      if stack == -1 {
        return Panics, -1;
      }
      var ok := MapPageOf(pid, processes[pid].regs.esp - PAGESIZE, stack * PAGESIZE, PWU);
      if !ok {
        return Panics, -1;
      }
      processes[pid] := processes[pid].(state := Runnable);
      return Continues, 0;
    }

    /** pageinfo_init, with the kernel image ending before page `kend`. */
    method PageinfoInit(kend: nat)
      requires Valid()
      modifies pageinfo
      ensures Valid() && forall f :: 0 <= f < NPAGES ==> pageinfo[f] == InitialPage(f, kend)
    {
      for pn := 0 to NPAGES
        invariant forall f :: 0 <= f < pn ==> pageinfo[f] == InitialPage(f, kend)
      {
        var owner: int;
        if pn == 0 || 0xA0 <= pn < PROC_PAGES {
          owner := PO_RESERVED;
        } else if 0x40 <= pn < kend || pn == 0x80 - 1 {
          owner := PO_KERNEL;
        } else {
          owner := PO_FREE;
        }
        pageinfo[pn] := PageInfo(owner, if owner != PO_FREE then 1 else 0);
      }
    }

    /** The loop of kernel() over the process descriptors. */
    method InitProcesses()
      requires Valid()
      modifies processes
      ensures Valid() && forall i :: 0 <= i < NPROC ==> processes[i] == Proc(i, NO_REGISTERS, Free, 0)
    {
      for i := 0 to NPROC
        invariant Valid() && forall j :: 0 <= j < i ==> processes[j] == Proc(j, NO_REGISTERS, Free, 0)
      {
        processes[i] := Proc(i, NO_REGISTERS, Free, 0);
      }
    }

    /** kernel() up to its first process: page tables, page and process descriptors. */
    method InitMachine()
      requires Valid() && kernelPagetable == at.kpt && mem[at.kl2] == ZeroPage() && current == 0
      modifies pageinfo, processes, mem
      ensures Valid() && View() == InitialState(at, old(mem[..]))
    {
      VirtualMemoryInit(at.kl2);
      PageinfoInit(at.kend);
      InitProcesses();
      CloseLowMemory();
      ghost var s := InitialState(at, old(mem[..]));
      assert pageinfo[..] == s.pageinfo && processes[..] == s.procs && mem[..] == s.mem;
    }

    /** kernel(): the machine starts running process 1, in the state in which histories begin, unless none can begin. */
    method Boot(programs: seq<Program>) returns (out: Outcome)
      requires Valid() && kernelPagetable == at.kpt && mem[at.kl2] == ZeroPage() && current == 0 && ProgramsOk(programs)
      modifies this`current, pageinfo, processes, mem
      ensures Valid() && out in {Continues, Panics}
      ensures out == Continues ==> Reached(History(at, old(mem[..]), programs, []), View())
      ensures out == Panics ==> forall s :: !Reached(History(at, old(mem[..]), programs, []), s)
      ensures out == Continues <==> forall k :: 0 <= k < |programs| ==> ProgramFits(at, programs, k)
    {
      hide InitialState, ProcessSetup, KernelSpec.RunProcess, KernelTableOk, RootPage, Reached, ProgramFits;
      ghost var h := History(at, mem[..], programs, []);
      BootsExactly(h);
      InitMachine();
      ghost var first := View();
      ghost var boots: seq<KState> := seq(|programs| + 1, i => first);
      for k := 0 to |programs|
        invariant Valid() && SetUpTo(h, boots, k) && boots[k] == View()
      {
        SetUpFrames(h, boots, k);
        KernelTableReady(h, boots, k);
        var r;
        out, r := SetUpProcess(k + 1, programs[k]);
        if out != Continues {
          NeverBoots(h, boots, k);
          return Panics;
        }
        SetUpNext(h, boots, k, View());
        boots := boots[k + 1 := View()];
      }
      RunsFirst(at, View());
      out := RunProcess(1);
      if out == Continues {
        assert Boots(h, boots, View());
        Begins(h, boots, View());
      } else {
        NeverRuns(h, boots);
      }
    }
  }

  /** The first k of the words lie from word address `start` on; the rest of memory is as it was. */
  ghost predicate Copied(was: seq<Page>, now: seq<Page>, start: nat, words: seq<Word>, k: nat)
    requires k <= |words|
  {
    && |was| == |now| == NPAGES
    && forall f, i :: 0 <= f < NPAGES && 0 <= i < NENTRIES ==>
         now[f][i] ==
         if start <= f * NENTRIES + i < start + k then words[f * NENTRIES + i - start] else was[f][i]
  }

  lemma ImageIs(seg: Segment, was: seq<Page>, copied: seq<Page>, now: seq<Page>)
    requires seg.First() < seg.End() <= NPAGES
    requires var start, n, all := seg.First() * NENTRIES, seg.Offset() + seg.filesz, seg.Offset() + seg.memsz;
      && Copied(was, copied, start, seg.src[..n], n)
      && Copied(copied, now, start + n, seq(all - n, i => ABSENT), all - n)
    ensures now == CopyImage(was, seg)
  {
    forall f | 0 <= f < NPAGES ensures now[f] == CopyImage(was, seg)[f] {
      forall i | 0 <= i < NENTRIES ensures now[f][i] == CopyImage(was, seg)[f][i] {
      }
    }
  }

  lemma RunsFirst(at: Layout, s: KState)
    ensures var r := KernelSpec.RunProcess(at, s, 1);
      r.Panic? || (s.procs[1].state.Runnable? && r == Done(s.(current := 1), 0))
  {}

  lemma KernelTableReady(h: History, boots: seq<KState>, k: nat)
    requires h.Ok() && k <= |h.programs| && SetUpTo(h, boots, k)
    ensures boots[k].mem[boots[k].kpt][0].frame < NPAGES
  {
    BootsInv(h, boots, k);
  }

  lemma {:induction false} SameBoots(h: History, a: seq<KState>, b: seq<KState>, k: nat)
    requires h.Ok() && k <= |h.programs| && SetUpTo(h, a, k) && SetUpTo(h, b, |h.programs|)
    ensures a[k] == b[k] && (k < |h.programs| ==> SetsUp(h, b, k))
  {
    hide ProcessSetup, InitialState;
    if k > 0 {
      SameBoots(h, a, b, k - 1);
      assert SetsUp(h, a, k - 1) && SetsUp(h, b, k - 1);
    }
  }

  /** If setting up program k fails, the programs do not boot. */
  lemma NeverBoots(h: History, boots: seq<KState>, k: nat)
    requires h.Ok() && k < |h.programs| && SetUpTo(h, boots, k) && ProcessSetup(boots[k], k + 1, h.programs[k]).Panic?
    ensures forall s :: !Reached(h, s)
  {
    hide ProcessSetup, InitialState;
    forall s ensures !Reached(h, s) {
      if Reached(h, s) {
        var path :| Execution(h, path) && path[|h.events|] == s;
        var b :| Boots(h, b, path[0]);
        SameBoots(h, boots, b, k);
        assert false;
      }
    }
  }

  /** Nor do they if process 1 cannot be run. */
  lemma NeverRuns(h: History, boots: seq<KState>)
    requires h.Ok() && SetUpTo(h, boots, |h.programs|) && KernelSpec.RunProcess(h.at, boots[|h.programs|], 1).Panic?
    ensures forall s :: !Reached(h, s)
  {
    hide ProcessSetup, InitialState, KernelSpec.RunProcess;
    forall s ensures !Reached(h, s) {
      if Reached(h, s) {
        var path :| Execution(h, path) && path[|h.events|] == s;
        var b :| Boots(h, b, path[0]);
        SameBoots(h, boots, b, |h.programs|);
        BootedInv(h, b, path[0]);
        assert false;
      }
    }
  }
}
