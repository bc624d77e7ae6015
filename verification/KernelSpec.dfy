/**
 * What each kernel operation does to the machine state (pset6/kernel.c,
 * pset6/k-loader.c): the reference the Kernel class is proved against, and the
 * step function of whole runs.
 */
module KernelSpec {
  import opened Common
  import opened Machine
  import opened Paging

  /** The outcome of a kernel path: it returns, the scheduler spins, or an assertion failed. */
  datatype Result = Done(state: KState, ret: int) | Idle(state: KState) | Panic

  const EAX_ERROR := 0xFFFF_FFFF  // (uint32_t) -1

  // ---------------------------------------------------------------- pages

  /** The first frame in [i, limit) that is free, or -1. */
  function FirstFree(pi: seq<PageInfo>, i: nat, limit: nat): (r: int)
    requires i <= limit <= |pi|
    ensures r == -1 ==> forall k :: i <= k < limit ==> pi[k].owner != PO_FREE
    ensures r != -1 ==>
              i <= r < limit && pi[r].owner == PO_FREE && forall k :: i <= k < r ==> pi[k].owner != PO_FREE
    decreases limit - i
  {
    if i == limit then -1 else if pi[i].owner == PO_FREE then i else FirstFree(pi, i + 1, limit)
  }

  /** find_free_page (limit NPAGES) and find_free_page_table (limit PROC_PAGES): an address. */
  function FreeAddress(pi: seq<PageInfo>, limit: nat): nat
    requires limit <= |pi|
  {
    var k := FirstFree(pi, 0, limit);
    if k == -1 then NOADDR else k * PAGESIZE
  }

  /** physical_page_alloc succeeds on `addr`. */
  predicate Allocatable(pi: seq<PageInfo>, addr: nat)
    requires |pi| == NPAGES
  {
    PageOffset(addr) == 0 && addr < NPAGES * PAGESIZE && pi[PageNumber(addr)].refcount == 0
  }

  function Grab(s: KState, f: nat, owner: int): KState
    requires f < |s.pageinfo|
  {
    s.(pageinfo := s.pageinfo[f := PageInfo(owner, 1)])
  }

  /** Find a free frame below `limit` and allocate it; -1 when there is none. */
  function AllocFree(s: KState, limit: nat, owner: int): (KState, int)
    requires limit <= NPAGES
  {
    var k := FirstFree(s.pageinfo, 0, limit);
    if k == -1 || s.pageinfo[k].refcount != 0 then (s, -1) else (Grab(s, k, owner), k)
  }

  // ---------------------------------------------------------------- page tables

  /** A level-1 table whose only entry is the level-2 table `l2`. */
  function RootPage(l2: nat): Page { ZeroPage()[0 := Word(l2, PWU)] }

  function LowEntry(v: nat): Word {
    if v == CONSOLE then Word(v, PWU) else if v < PROC_PAGES then Word(v, PW) else ABSENT
  }

  /** A new process's level-2 table: kernel memory below PROC_START_ADDR, console open, nothing else. */
  function LowPage(): Page { seq(NENTRIES, v requires 0 <= v => LowEntry(v)) }

  /** copy_pagetable: returns the frame of the new level-1 table, or -1. */
  function CopyPagetable(s: KState, owner: int): (KState, int)
  {
    var (s1, l1) := AllocFree(s, PROC_PAGES, owner);
    if l1 == -1 then (s1, -1)
    else
      var (s2, l2) := AllocFree(s1, PROC_PAGES, owner);
      if l2 == -1 then (s2, -1)
      else (s2.(mem := s2.mem[l1 := RootPage(l2)][l2 := LowPage()]), l1)
  }

  /** virtual_memory_map of one page in the table of process `p`. */
  function MapPage(s: KState, p: nat, va: nat, pa: nat, perm: Perm): Result
    requires p < NPROC
  {
    match MapRange(s.mem, s.procs[p].pagetable, va, pa, PAGESIZE, perm)
    case Some(m) => Done(s.(mem := m), 0)
    case None => Panic
  }

  // ---------------------------------------------------------------- exit

  /** What sys_exit(pid) does to one page descriptor. */
  function ExitPage(x: PageInfo, pid: int): PageInfo {
    var y := if x.owner == pid then PageInfo(PO_FREE, 0) else x;
    if y.refcount > 1 && y.owner > 0 then PageInfo(y.owner, y.refcount - 1) else y
  }

  function ExitPages(pi: seq<PageInfo>, pid: int): seq<PageInfo> {
    seq(|pi|, i requires 0 <= i < |pi| => ExitPage(pi[i], pid))
  }

  function Exit(s: KState, pid: nat): KState
    requires pid < NPROC
  {
    s.(pageinfo := ExitPages(s.pageinfo, pid), procs := s.procs[pid := s.procs[pid].(state := Free)])
  }

  // ---------------------------------------------------------------- fork

  /** The first free process slot in [i, NPROC), or -1. */
  function FreeSlot(procs: seq<Proc>, i: nat): (r: int)
    requires i <= |procs|
    ensures r == -1 ==> forall k :: i <= k < |procs| ==> !procs[k].state.Free?
    ensures r != -1 ==> i <= r < |procs| && procs[r].state.Free?
    decreases |procs| - i
  {
    if i == |procs| then -1 else if procs[i].state.Free? then i else FreeSlot(procs, i + 1)
  }

  function SetEax(s: KState, p: nat, v: nat): KState
    requires p < NPROC
  {
    s.(procs := s.procs[p := s.procs[p].(regs := s.procs[p].regs.(eax := v))])
  }

  predicate Shareable(pi: seq<PageInfo>, f: nat) {
    f < |pi| && pi[f].refcount > 0 && pi[f].owner > 0
  }

  /** Copy the parent's page `src` into the child's new page `f` and map it at page `v`. */
  function CopyPage(s: KState, child: nat, v: nat, src: nat, f: nat, perm: Perm): Result
    requires child < NPROC && src < NPAGES && f < NPAGES
  {
    MapPage(s.(mem := s.mem[f := s.mem[src]]), child, v * PAGESIZE, f * PAGESIZE, perm)
  }

  /** Count one more user of page `f` and map it read-only at page `v`. */
  function SharePage(s: KState, child: nat, v: nat, f: nat): Result
    requires child < NPROC && f < NPAGES
  {
    var x := s.pageinfo[f];
    MapPage(s.(pageinfo := s.pageinfo[f := PageInfo(x.owner, x.refcount + 1)]), child, v * PAGESIZE, f * PAGESIZE, PU)
  }

  /**
   * fork's loop over the pages from `v` on: writable pages are copied into new pages of
   * the child, read-only pages in use are shared. ret is -1 when memory runs out.
   */
  function CopyRange(s: KState, child: nat, v: nat): Result
    requires child < NPROC && v <= VIRT_PAGES
    decreases VIRT_PAGES - v
  {
    if v == VIRT_PAGES then Done(s, 0)
    else
      var e := Walk(s.mem, s.procs[s.current].pagetable, v);
      if !e.perm.p || e.frame >= NPAGES then CopyRange(s, child, v + 1)
      else if e.perm.w then
        var (s1, f) := AllocFree(s, NPAGES, child);
        if f == -1 then Done(s1, -1)
        else
          match CopyPage(s1, child, v, e.frame, f, e.perm)
          case Done(s2, _) => CopyRange(s2, child, v + 1)
          case _ => Panic
      else if Shareable(s.pageinfo, e.frame) then
        match SharePage(s, child, v, e.frame)
        case Done(s2, _) => CopyRange(s2, child, v + 1)
        case _ => Panic
      else CopyRange(s, child, v + 1)
  }

  /** The child's descriptor is claimed before its memory is built. */
  function Claim(s: KState, slot: nat): KState
    requires slot < NPROC
  {
    s.(procs := s.procs[slot := s.procs[slot].(pid := slot, state := Runnable)])
  }

  function SetPagetable(s: KState, p: nat, pt: nat): KState
    requires p < NPROC && pt < NPAGES
  {
    s.(procs := s.procs[p := s.procs[p].(pagetable := pt)])
  }

  /** fork ran out of memory: the parent sees -1 and the half-built child exits. */
  function ForkFailed(s: KState, slot: nat): Result
    requires slot < NPROC
  {
    Done(Exit(SetEax(s, s.current, EAX_ERROR), slot), -1)
  }

  function ForkRegisters(s: KState, slot: nat): KState
    requires slot < NPROC
  {
    var s1 := s.(procs := s.procs[slot := s.procs[slot].(regs := s.procs[s.current].regs.(eax := 0))]);
    SetEax(s1, s.current, slot)
  }

  function Fork(s: KState): Result
  {
    var slot := FreeSlot(s.procs, 1);
    if slot == -1 then Done(s, -1)
    else
      var s1 := Claim(s, slot);
      var (s2, pt) := CopyPagetable(s1, slot);
      if pt == -1 then ForkFailed(s2, slot)
      else
        var s3 := SetPagetable(s2, slot, pt);
        match CopyRange(s3, slot, PROC_PAGES)
        case Done(s4, ret) =>
          if ret == -1 then ForkFailed(s4, slot)
          else Done(ForkRegisters(s4, slot), slot)
        case _ => Panic
  }

  // ---------------------------------------------------------------- the other traps

  /** The page-allocation system call: the address is in eax, the result goes there. */
  function PageAlloc(s: KState): Result
  {
    var va := s.procs[s.current].regs.eax;
    var (s1, f) := AllocFree(s, NPAGES, s.procs[s.current].pid);
    if f == -1 then Done(SetEax(s, s.current, EAX_ERROR), -1)
    else
      match MapPage(s1, s.current, va, f * PAGESIZE, PWU)
      case Done(s2, _) => Done(SetEax(s2, s.current, 0), 0)
      case _ => Panic
  }

  // ---------------------------------------------------------------- running processes

  /**
   * Where the kernel image and its two page tables lie (page numbers), and the addresses of
   * default_int_handler and virtual_memory_map in its code.
   */
  datatype Addresses = Addresses(kend: nat, kpt: nat, kl2: nat, handler: nat, mapper: nat)
  {
    predicate Ok() {
      && 0x40 <= kpt < kend && 0x40 <= kl2 < kend && kpt != kl2 && kpt < 0xA0 && kl2 < 0xA0
      && 0x40 <= PageNumber(handler) < kend && PageNumber(handler) < 0xA0
      && 0x40 <= PageNumber(mapper) < kend && PageNumber(mapper) < 0xA0
    }
  }

  type Layout = a: Addresses | a.Ok() witness Addresses(0x44, 0x42, 0x43, 0x40000, 0x41000)

  /** The assertions of set_pagetable: the table reaches the kernel, and the kernel reaches the table. */
  predicate PagetableOk(at: Layout, s: KState, pt: nat)
    requires pt < NPAGES
  {
    && Lookup(s.mem, pt, at.handler).pa == at.handler
    && Lookup(s.mem, s.kpt, pt * PAGESIZE).pa == pt * PAGESIZE
    && Lookup(s.mem, pt, s.kpt * PAGESIZE).pa == s.kpt * PAGESIZE
    && Lookup(s.mem, pt, at.mapper).pa == at.mapper
  }

  /** run(): go on with process p. */
  function RunProcess(at: Layout, s: KState, p: nat): Result
    requires p < NPROC
  {
    if s.procs[p].state.Runnable? && PagetableOk(at, s, s.procs[p].pagetable) then Done(s.(current := p), 0) else Panic
  }

  /** The first runnable process among pid+1, pid+2, ..., in at most k tries; -1 if none. */
  function NextRunnable(procs: seq<Proc>, pid: nat, k: nat): (r: int)
    requires |procs| == NPROC && pid < NPROC
    ensures r == -1 || (0 <= r < NPROC && procs[r].state.Runnable?)
    decreases k
  {
    if k == 0 then -1
    else
      var next := if pid + 1 == NPROC then 0 else pid + 1;
      if procs[next].state.Runnable? then next else NextRunnable(procs, next, k - 1)
  }

  function Schedule(at: Layout, s: KState): Result
  {
    var next := NextRunnable(s.procs, s.current, NPROC);
    if next == -1 then Idle(s) else RunProcess(at, s, next)
  }

  datatype Trap = SysPanic | GetPid | Yield | PageAllocation | ForkCall | ExitCall | Timer | PageFault | Unknown

  predicate UserFault(regs: Registers) { regs.err / 4 % 2 == 1 }  // PFERR_USER

  /** The assertions of virtual_memory_check about one page table. */
  predicate TableCheck(s: KState, pt: nat, owner: int, refcount: int)
  {
    && pt < NPAGES && s.pageinfo[pt] == PageInfo(owner, refcount)
    && forall i :: 0 <= i < NENTRIES && s.mem[pt][i].perm.p ==>
         s.mem[pt][i].frame < NPAGES && s.pageinfo[s.mem[pt][i].frame] == PageInfo(owner, 1)
  }

  /** The live processes from `i` on that run on the kernel's own page table. */
  function KernelTableUsers(s: KState, i: nat): nat
    requires i <= NPROC
    decreases NPROC - i
  {
    if i == NPROC then 0
    else (if !s.procs[i].state.Free? && s.procs[i].pagetable == s.kpt then 1 else 0) + KernelTableUsers(s, i + 1)
  }

  predicate ProcessCheck(s: KState, p: nat)
    requires p < NPROC
  {
    !s.procs[p].state.Free? && s.procs[p].pagetable != s.kpt ==> TableCheck(s, s.procs[p].pagetable, p, 1)
  }

  predicate OwnerCheck(s: KState, f: nat)
    requires f < NPAGES
  {
    s.pageinfo[f].refcount > 0 && s.pageinfo[f].owner >= 0 ==>
      s.pageinfo[f].owner < NPROC && !s.procs[s.pageinfo[f].owner].state.Free?
  }

  /** Every assertion of virtual_memory_check. */
  predicate VirtualMemoryCheck(s: KState)
  {
    && s.procs[0].state.Free?
    && TableCheck(s, s.kpt, PO_KERNEL, 1 + KernelTableUsers(s, 0))
    && (forall p :: 0 <= p < NPROC ==> ProcessCheck(s, p))
    && (forall f :: 0 <= f < NPAGES ==> OwnerCheck(s, f))
  }

  /** The switch of exception(). */
  function Handle(at: Layout, s: KState, t: Trap): Result
  {
    match t
    case SysPanic => Panic
    case GetPid => if s.procs[s.current].pid < 0 then Panic else Done(SetEax(s, s.current, s.procs[s.current].pid), 0)
    case Yield => Schedule(at, s)
    case Timer => Schedule(at, s)
    case PageAllocation => PageAlloc(s)
    case ForkCall => Fork(s)
    case ExitCall =>
      if 0 <= s.procs[s.current].pid < NPROC then Done(Exit(s, s.procs[s.current].pid), 0) else Panic
    case PageFault =>
      if UserFault(s.procs[s.current].regs)
      then Done(s.(procs := s.procs[s.current := s.procs[s.current].(state := Broken)]), 0)
      else Panic
    case Unknown => Panic
  }

  /** The state in which exception() has saved the registers. */
  function Saved(s: KState, regs: Registers): KState {
    s.(procs := s.procs[s.current := s.procs[s.current].(regs := regs)])
  }

  /** exception(): save registers, take the kernel's page table, check the invariants, handle, run a process. */
  function Exception(at: Layout, s: KState, t: Trap, regs: Registers): Result
  {
    var s1 := Saved(s, regs);
    if !PagetableOk(at, s1, s1.kpt) then Panic
    else if (t != PageFault || UserFault(regs)) && !VirtualMemoryCheck(s1) then Panic
    else
      match Handle(at, s1, t)
      case Done(s2, _) =>
        if s2.procs[s2.current].state.Runnable? then RunProcess(at, s2, s2.current) else Schedule(at, s2)
      case Idle(s2) => Idle(s2)
      case Panic => Panic
  }

  /** The running process stores a word through its own page table; a refused store has no effect. */
  function UserStore(s: KState, vpn: nat, i: nat, w: Word): KState
    requires vpn < L1_PAGES && i < NENTRIES
  {
    var e := Walk(s.mem, s.procs[s.current].pagetable, vpn);
    if e.perm.p && e.perm.w && e.perm.u then s.(mem := PutEntry(s.mem, e.frame, i, w)) else s
  }

  // ---------------------------------------------------------------- loading programs

  /**
   * A loadable segment of an ELF file, in words: it is to lie at `va`, `filesz` words of it come from the
   * file, where it begins like `src`, and the rest up to `memsz` is cleared.
   */
  datatype ElfSegment = ElfSegment(va: nat, src: seq<Word>, filesz: nat, memsz: nat, writable: bool)
  {
    function First(): nat { va / NENTRIES }
    function Offset(): nat { va % NENTRIES }
    /** The page behind the last one. */
    function End(): nat { (va + memsz + NENTRIES - 1) / NENTRIES }
    predicate Ok() { filesz <= memsz && Offset() + filesz <= |src| }
  }

  type Segment = s: ElfSegment | s.Ok() witness ElfSegment(0, [], 0, 0, false)

  datatype Program = Program(segments: seq<Segment>, entry: nat)

  /** Allocate pages [v, end) at their own addresses and map them; None: physical_page_alloc failed. */
  function AllocSegment(s: KState, pid: nat, v: nat, end: nat): (r: Result)
    requires pid < NPROC && v <= end
    ensures r.Done? && r.ret == 0 && v < end ==> end <= NPAGES
    decreases end - v
  {
    if v == end then Done(s, 0)
    else if v >= NPAGES || s.pageinfo[v].refcount != 0 then Done(s, -1)
    else
      match MapPage(Grab(s, v, pid), pid, v * PAGESIZE, v * PAGESIZE, PWU)
      case Done(s1, _) => AllocSegment(s1, pid, v + 1, end)
      case _ => Panic
  }

  /** Page f once the segment is copied: from the beginning of its first page on, and cleared behind. */
  function LoadedPage(seg: Segment, f: nat, was: Page): Page
    requires seg.First() <= f
  {
    seq(NENTRIES, i requires 0 <= i < NENTRIES =>
      var k := (f - seg.First()) * NENTRIES + i;
      if k < seg.Offset() + seg.filesz then seg.src[k] else if k < seg.Offset() + seg.memsz then ABSENT else was[i])
  }

  /** memcpy and memset of program_load_segment. */
  function CopyImage(mem: seq<Page>, seg: Segment): (m: seq<Page>)
    ensures |m| == |mem|
  {
    seq(|mem|, f requires 0 <= f < |mem| => if seg.First() <= f < seg.End() then LoadedPage(seg, f, mem[f]) else mem[f])
  }

  /** Map pages [v, end) of a read-only segment again, without PTE_W. */
  function Downgrade(s: KState, pid: nat, v: nat, end: nat): Result
    requires pid < NPROC && v <= end <= NPAGES
    decreases end - v
  {
    if v == end then Done(s, 0)
    else
      var e := Walk(s.mem, s.procs[pid].pagetable, v);
      if !e.perm.p then Panic  // the address of an unmapped page is not in physical memory
      else
        match MapPage(s, pid, v * PAGESIZE, e.frame * PAGESIZE, PU)
        case Done(s1, _) => Downgrade(s1, pid, v + 1, end)
        case _ => Panic
  }

  function LoadSegment(s: KState, pid: nat, seg: Segment): Result
    requires pid < NPROC
  {
    if seg.First() >= seg.End() then Done(s, 0)
    else
      match AllocSegment(s, pid, seg.First(), seg.End())
      case Done(s1, ret) =>
        if ret != 0 then Done(s1, -1)
        else
          var s2 := s1.(mem := CopyImage(s1.mem, seg));
          if seg.writable then Done(s2, 0) else Downgrade(s2, pid, seg.First(), seg.End())
      case _ => Panic
  }

  function LoadSegments(s: KState, pid: nat, segs: seq<Segment>): Result
    requires pid < NPROC
    decreases |segs|
  {
    if segs == [] then Done(s, 0)
    else
      match LoadSegment(s, pid, segs[0])
      case Done(s1, ret) =>
        if ret != 0 then Done(s1, -1) else LoadSegments(s1, pid, segs[1..])
      case _ => Panic
  }

  /** The registers of a fresh process (process_init with no flags). */
  const INITIAL_REGISTERS :=
    Registers(0, 0, 0, 0, 0, 0, 0, 0, 0x23, 0x23, 0, 0, 0, 0x1B, 0x200, 0, 0x23)

  /** The end of process_setup: the entry point, the stack page, and the process may run. */
  function SetupEnd(s: KState, pid: nat, entry: nat): Result
    requires pid < NPROC
  {
    var s1 := s.(procs := s.procs[pid := s.procs[pid].(regs :=
                   s.procs[pid].regs.(eip := entry, esp := VIRT_PAGES * PAGESIZE))]);
    var (s2, f) := AllocFree(s1, NPAGES, pid);
    if f == -1 then Panic
    else
      match MapPage(s2, pid, (VIRT_PAGES - 1) * PAGESIZE, f * PAGESIZE, PWU)
      case Done(s3, _) => Done(s3.(procs := s3.procs[pid := s3.procs[pid].(state := Runnable)]), 0)
      case _ => Panic
  }

  /** process_setup; ret is -1 when there was no memory for page tables. */
  function ProcessSetup(s: KState, pid: nat, prog: Program): Result
    requires pid < NPROC
  {
    var s1 := s.(procs := s.procs[pid := s.procs[pid].(regs := INITIAL_REGISTERS)]);
    var (s2, pt) := CopyPagetable(s1, pid);
    if pt == -1 then Done(s2, -1)
    else
      match LoadSegments(SetPagetable(s2, pid, pt), pid, prog.segments)
      case Done(s3, ret) => if ret != 0 then Panic else SetupEnd(s3, pid, prog.entry)
      case _ => Panic
  }

  // ---------------------------------------------------------------- boot and runs

  /** pageinfo_init for page `f`, with the kernel's image ending before page `kend`. */
  function InitialPage(f: nat, kend: nat): PageInfo {
    if f == 0 || 0xA0 <= f < PROC_PAGES then PageInfo(PO_RESERVED, 1)
    else if 0x40 <= f < kend || f == 0x7F then PageInfo(PO_KERNEL, 1)
    else PageInfo(PO_FREE, 0)
  }

  function KernelEntry(v: nat): Word {
    if v < PROC_PAGES then LowEntry(v) else if v < NPAGES then Word(v, PWU) else ABSENT
  }

  /** The kernel's level-2 table once kernel() has closed low memory and opened the console. */
  function KernelLow(): Page { seq(NENTRIES, v requires 0 <= v => KernelEntry(v)) }

  /** The state before the first process_setup; `ram` is whatever memory held at power-on. */
  function InitialState(at: Layout, ram: seq<Page>): KState
    requires |ram| == NPAGES
  {
    Globals(
      seq(NPAGES, f requires 0 <= f => InitialPage(f, at.kend)),
      seq(NPROC, i requires 0 <= i => Proc(i, NO_REGISTERS, Free, 0)),
      ram[at.kpt := RootPage(at.kl2)][at.kl2 := KernelLow()],
      0, at.kpt)
  }

  /** What can happen next: the running process traps into the kernel, or it stores to memory. */
  datatype Event = Trapped(trap: Trap, regs: Registers) | Stored(vpn: nat, index: nat, word: Word)
  {
    predicate Possible() { Stored? ==> vpn < L1_PAGES && index < NENTRIES }
  }

  function Step(at: Layout, s: KState, e: Event): Result
    requires e.Possible()
  {
    match e
    case Trapped(t, regs) => Exception(at, s, t, regs)
    case Stored(vpn, i, w) => Done(UserStore(s, vpn, i, w), 0)
  }

  ghost predicate AllPossible(events: seq<Event>) { forall i :: 0 <= i < |events| ==> events[i].Possible() }
}
