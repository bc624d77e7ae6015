/**
 * The state of the WeensyOS machine: physical memory, page descriptors and
 * process descriptors (pset6/kernel.c, pset6/kernel.h, pset6/x86.h).
 *
 * Physical memory is a sequence of page frames of 1024 words each. A 32-bit
 * word is held as its PTE_ADDR half (a frame number) and its PTE_FLAGS half, so
 * the same frame can be read as user data and as a page table.
 */
module Machine {
  const NPAGES := 512        // MEMSIZE_PHYSICAL / PAGESIZE
  const PROC_PAGES := 256    // PROC_START_ADDR / PAGESIZE
  const VIRT_PAGES := 768    // MEMSIZE_VIRTUAL / PAGESIZE
  const PAGESIZE := 4096
  const L1_PAGES := 0x10_0000  // pages of a 32-bit address space
  const NENTRIES := 1024     // words in a page, entries in a page table
  const CONSOLE := 0xB8      // page number of the CGA console
  const NPROC := 16
  const NOADDR := 0xFFFF_FFFF  // (uintptr_t) -1

  const PO_FREE := 0
  const PO_RESERVED := -1
  const PO_KERNEL := -2

  /** The twelve flag bits of a page table entry: PTE_P, PTE_W, PTE_U and the other nine. */
  datatype Perm = Perm(p: bool, w: bool, u: bool, rest: nat)

  const NOPERM := Perm(false, false, false, 0)
  const PW := Perm(true, true, false, 0)
  const PU := Perm(true, false, true, 0)
  const PWU := Perm(true, true, true, 0)

  datatype Word = Word(frame: nat, perm: Perm)

  const ABSENT := Word(0, NOPERM)

  type Page = s: seq<Word> | |s| == NENTRIES witness seq(NENTRIES, i => ABSENT)

  // L1PAGEINDEX, L2PAGEINDEX and PAGENUMBER (pset6/x86.h), on page numbers and addresses
  function L1Index(vpn: nat): nat { vpn / 1024 }
  function L2Index(vpn: nat): (i: nat) ensures i < NENTRIES { vpn % 1024 }
  function PageNumber(a: nat): nat { a / 4096 }
  function PageOffset(a: nat): nat { a % 4096 }

  function ZeroPage(): Page { seq(NENTRIES, i => ABSENT) }

  datatype PageInfo = PageInfo(owner: int, refcount: int)

  datatype Registers = Registers(
    edi: nat, esi: nat, ebp: nat, originalEsp: nat, ebx: nat, edx: nat, ecx: nat, eax: nat,
    es: nat, ds: nat, intno: nat, err: nat, eip: nat, cs: nat, eflags: nat, esp: nat, ss: nat)

  datatype ProcState = Free | Runnable | Blocked | Broken

  /** `pagetable` is the frame number of the level-1 table. */
  datatype Proc = Proc(pid: int, regs: Registers, state: ProcState, pagetable: nat)

  /** The kernel's globals: pageinfo[], processes[], physical memory, current, kernel_pagetable. */
  datatype Globals = Globals(pageinfo: seq<PageInfo>, procs: seq<Proc>, mem: seq<Page>, current: nat, kpt: nat)
  {
    predicate Shape() {
      && |pageinfo| == NPAGES && |procs| == NPROC && |mem| == NPAGES
      && current < NPROC && kpt < NPAGES
      && forall i :: 0 <= i < NPROC ==> procs[i].pagetable < NPAGES
    }
  }

  const NO_REGISTERS := Registers(0, 0, 0, 0, 0, 0, 0, 0, 0, 0, 0, 0, 0, 0, 0, 0, 0)

  type KState = s: Globals | s.Shape()
    witness Globals(seq(NPAGES, i => PageInfo(PO_FREE, 0)), seq(NPROC, i => Proc(0, NO_REGISTERS, Free, 0)),
                    seq(NPAGES, i => ZeroPage()), 0, 0)
}
