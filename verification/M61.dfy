/**
 * The debugging allocator (pset1/m61.c): a doubly linked list of metadata kept in step with the
 * statistics, on a 32-bit machine. The system's malloc is a parameter: the address it returned.
 */
module M61 {
  import opened Common

  const META := 28  // sizeof(m61_meta)
  const FOOT := 4   // sizeof(m61_foot)

  /** find_pad, for metadata of `meta` bytes. */
  function FindPad(meta: nat): nat {
    if meta <= 2 * 8 then 2 * 8 - meta else meta % 8
  }

  /** The padding aligns the payload to 8 bytes exactly for small metadata, or metadata a multiple of 4 long. */
  lemma PadAligns(meta: nat)
    ensures (FindPad(meta) + meta) % 8 == 0 <==> meta <= 16 || meta % 4 == 0
  {}

  /** new_sz, in 32 bits. */
  function BlockSize(sz: nat): nat { (sz + FindPad(META) + META + FOOT) % 0x1_0000_0000 }

  /** m61_malloc does not try: the sum wrapped around, or the size is negative as an int. */
  predicate Rejected(sz: nat) { BlockSize(sz) < sz || sz >= 0x8000_0000 }

  lemma RejectedExactly(sz: nat)
    requires sz < 0x1_0000_0000
    ensures Rejected(sz) <==> sz >= 0x8000_0000
    ensures !Rejected(sz) ==> BlockSize(sz) == sz + 36
  {}

  // ---------------------------------------------------------------- live blocks as values

  /** An allocation the program holds: payload address, size and where it was made. */
  datatype Block = Block(ptr: nat, size: nat, file: string, line: int)
  {
    /** First byte of the block the system gave, and the first behind it. */
    function From(): int { ptr - 32 }
    function To(): int { ptr + size + FOOT }
  }

  ghost predicate Apart(b: Block, c: Block) { b.To() <= c.From() || c.To() <= b.From() }

  ghost predicate AllApart(bs: seq<Block>) { forall i, j :: 0 <= i < j < |bs| ==> Apart(bs[i], bs[j]) }

  function TotalSize(bs: seq<Block>): nat { if bs == [] then 0 else TotalSize(bs[..|bs| - 1]) + bs[|bs| - 1].size }

  function Without<T>(s: seq<T>, k: nat): seq<T>
    requires k < |s|
  {
    s[..k] + s[k + 1..]
  }

  lemma WithoutAppend<T>(s: seq<T>, x: T, k: nat)
    requires k < |s|
    ensures Without(s + [x], k) == Without(s, k) + [x] && Without(s + [x], k)[|s| - 1] == x
  {}

  lemma {:induction false} TotalWithout(bs: seq<Block>, k: nat)
    requires k < |bs|
    ensures TotalSize(Without(bs, k)) + bs[k].size == TotalSize(bs)
    decreases |bs|
  {
    var last := |bs| - 1;
    if k == last {
      assert Without(bs, k) == bs[..last];
    } else {
      TotalWithout(bs[..last], k);
      assert Without(bs, k)[..last - 1] == Without(bs[..last], k);
    }
  }

  lemma TotalAppend(bs: seq<Block>, b: Block)
    ensures TotalSize(bs + [b]) == TotalSize(bs) + b.size
  {
    assert (bs + [b])[..|bs|] == bs;
  }

  /** The index of the block that starts at p, or -1. */
  function AtPtr(bs: seq<Block>, p: nat): (k: int)
    ensures -1 <= k < |bs|
    ensures k >= 0 ==> bs[k].ptr == p
    ensures k == -1 ==> forall i :: 0 <= i < |bs| ==> bs[i].ptr != p
  {
    if bs == [] then -1 else if bs[|bs| - 1].ptr == p then |bs| - 1 else AtPtr(bs[..|bs| - 1], p)
  }

  /** Live blocks start at different addresses. */
  lemma AtPtrExact(bs: seq<Block>, k: nat)
    requires AllApart(bs) && k < |bs|
    ensures AtPtr(bs, bs[k].ptr) == k
  {
    var j := AtPtr(bs, bs[k].ptr);
    assert j < k ==> Apart(bs[j], bs[k]);
    assert k < j ==> Apart(bs[k], bs[j]);
  }

  /**
   * What the system's malloc may return for BlockSize(sz) bytes: NULL, or an aligned block apart
   * from the live ones.
   */
  predicate MayReturn(bs: seq<Block>, base: nat, sz: nat) {
    base == 0 ||
    (base % 8 == 0 && base + BlockSize(sz) < 0x1_0000_0000 &&
     forall i :: 0 <= i < |bs| ==> base + BlockSize(sz) <= bs[i].From() || bs[i].To() <= base)
  }

  /** The bounds find_meta compares with, both included. */
  predicate Contains(b: Block, p: nat) { b.ptr <= p <= b.ptr + b.size }

  /** find_meta on the list: the newest block that contains p. */
  function Find(bs: seq<Block>, p: nat): (k: int)
    ensures -1 <= k < |bs|
    ensures k >= 0 ==> Contains(bs[k], p)
  {
    if bs == [] then -1 else if Contains(bs[|bs| - 1], p) then |bs| - 1 else Find(bs[..|bs| - 1], p)
  }

  /** It finds the only live block that contains p, if there is one. */
  lemma {:induction false} FindExact(bs: seq<Block>, p: nat, k: nat)
    requires AllApart(bs) && k < |bs|
    ensures Contains(bs[k], p) <==> Find(bs, p) == k
    decreases |bs|
  {
    var last := |bs| - 1;
    if Contains(bs[last], p) {
      assert k < last ==> Apart(bs[k], bs[last]);
    } else if k < last {
      FindExact(bs[..last], p, k);
    }
  }

  function Reversed<T>(s: seq<T>): (r: seq<T>)
    ensures |r| == |s| && forall i :: 0 <= i < |s| ==> r[i] == s[|s| - 1 - i]
  {
    if s == [] then [] else [s[|s| - 1]] + Reversed(s[..|s| - 1])
  }

  // ---------------------------------------------------------------- runs of the program

  /** What a program does, with what the system's malloc would return. */
  datatype Op =
    | DoMalloc(sz: nat, file: string, line: int, base: nat, junk: seq<Byte>)
    | DoFree(ptr: nat)
    | DoRealloc(ptr: nat, sz: nat, file: string, line: int, base: nat, junk: seq<Byte>)

  function AfterMalloc(bs: seq<Block>, sz: nat, file: string, line: int, base: nat): seq<Block> {
    if Rejected(sz) || base == 0 then bs else bs + [Block(base + 32, sz, file, line)]
  }

  function AfterRealloc(bs: seq<Block>, ptr: nat, sz: nat, file: string, line: int, base: nat): seq<Block> {
    var kept := if ptr != 0 && AtPtr(bs, ptr) != -1 then Without(bs, AtPtr(bs, ptr)) else bs;
    if sz == 0 then kept else AfterMalloc(kept, sz, file, line, base)
  }

  /** The live blocks after an operation. */
  function After(bs: seq<Block>, op: Op): seq<Block> {
    match op
    case DoMalloc(sz, file, line, base, junk) => AfterMalloc(bs, sz, file, line, base)
    case DoFree(ptr) => if AtPtr(bs, ptr) != -1 then Without(bs, AtPtr(bs, ptr)) else bs
    case DoRealloc(ptr, sz, file, line, base, junk) => AfterRealloc(bs, ptr, sz, file, line, base)
  }

  /** The block an operation hands out, if any. */
  function Handed(op: Op): set<Block> {
    match op
    case DoMalloc(sz, file, line, base, junk) =>
        if Rejected(sz) || base == 0 then {} else {Block(base + 32, sz, file, line)}
    case DoFree(ptr) => {}
    case DoRealloc(ptr, sz, file, line, base, junk) =>
      if sz == 0 || Rejected(sz) || base == 0 then {} else {Block(base + 32, sz, file, line)}
  }

  /** The program frees and resizes live pointers (or resizes NULL), and the system's malloc keeps its promise. */
  predicate Allowed(bs: seq<Block>, op: Op) {
    match op
    case DoMalloc(sz, file, line, base, junk) => sz < 0x1_0000_0000 && |junk| == sz && MayReturn(bs, base, sz)
    case DoFree(ptr) => AtPtr(bs, ptr) != -1
    case DoRealloc(ptr, sz, file, line, base, junk) =>
      sz < 0x1_0000_0000 && |junk| == sz && MayReturn(bs, base, sz) && (ptr == 0 || AtPtr(bs, ptr) != -1)
  }

  function Run(ops: seq<Op>): seq<Block> {
    if ops == [] then [] else After(Run(ops[..|ops| - 1]), ops[|ops| - 1])
  }

  function AllHanded(ops: seq<Op>): set<Block> {
    if ops == [] then {} else AllHanded(ops[..|ops| - 1]) + Handed(ops[|ops| - 1])
  }

  predicate AllAllowed(ops: seq<Op>) {
    forall k :: 0 <= k < |ops| ==> Allowed(Run(ops[..k]), ops[k])
  }

  // ---------------------------------------------------------------- the allocator

  /** An m61_meta and the payload behind it. */
  class Meta {
    const addr: nat
    const size: nat
    const file: string
    const line: int
    const payload: array<Byte>
    var isActive: bool
    var next: Meta?
    var prev: Meta?

    constructor (addr: nat, size: nat, file: string, line: int, payload: array<Byte>)
      ensures this.addr == addr && this.size == size && this.file == file && this.line == line
      ensures this.payload == payload
      ensures isActive && next == null && prev == null
    {
      this.addr, this.size, this.file, this.line, this.payload := addr, size, file, line, payload;
      isActive, next, prev := true, null, null;
    }

    function AsBlock(): Block { Block(addr + META, size, file, line) }
  }

  function Blocks(live: seq<Meta>): (r: seq<Block>)
    ensures |r| == |live| && forall i :: 0 <= i < |live| ==> r[i] == live[i].AsBlock()
  {
    seq(|live|, i requires 0 <= i < |live| => live[i].AsBlock())
  }

  /** What m61_free prints. */
  datatype Report = NotInHeap | NothingAllocated | NotAllocated(inside: Option<Block>)

  lemma WithoutAt<T>(s: seq<T>, k: nat)
    requires k < |s|
    ensures |Without(s, k)| == |s| - 1
    ensures forall i :: 0 <= i < |s| - 1 ==> Without(s, k)[i] == s[if i < k then i else i + 1]
  {}

  lemma ApartWithout(bs: seq<Block>, k: nat)
    requires k < |bs| && AllApart(bs)
    ensures AllApart(Without(bs, k))
  {
    hide Without, Apart;
    WithoutAt(bs, k);
  }

  lemma BlocksWithout(list: seq<Meta>, k: nat)
    requires k < |list| && AllApart(Blocks(list))
    ensures Blocks(Without(list, k)) == Without(Blocks(list), k) && AllApart(Blocks(Without(list, k)))
    ensures TotalSize(Blocks(Without(list, k))) == TotalSize(Blocks(list)) - list[k].size
  {
    hide AllApart, TotalSize, Without;
    WithoutAt(list, k);
    WithoutAt(Blocks(list), k);
    assert Blocks(Without(list, k)) == Without(Blocks(list), k);
    ApartWithout(Blocks(list), k);
    TotalWithout(Blocks(list), k);
  }

  /** The lowest start and the highest end of some blocks, both taken by one of them; 0 if there are none. */
  ghost predicate Bounds(bs: set<Block>, min: int, max: int) {
    if bs == {} then min == 0 && max == 0
    else
      && min > 0 && (forall b :: b in bs ==> min <= b.From() && b.To() <= max)
      && (exists b :: b in bs && b.From() == min) && exists b :: b in bs && b.To() == max
  }

  /** The bounds with one more block. */
  lemma BoundsGrow(bs: set<Block>, min: int, max: int, b: Block)
    requires Bounds(bs, min, max) && 0 < b.From() < b.To()
    ensures Bounds(bs + {b}, if min == 0 || b.From() < min then b.From() else min, if b.To() > max then b.To() else max)
  {
    if bs != {} {
      var low :| low in bs && low.From() == min;
      var high :| high in bs && high.To() == max;
      assert low in bs + {b} && high in bs + {b};
    }
    assert b in bs + {b};
  }

  class Allocator {
    var root: Meta?
    var memory: map<nat, Meta>  // the m61_meta at each address, also of freed blocks that were not overwritten
    var nactive: int
    var activeSize: int
    var ntotal: int
    var totalSize: int
    var nfail: int
    var failSize: int
    var heapMin: int
    var heapMax: int
    ghost var live: seq<Meta>  // oldest first
    ghost var freed: set<Meta>
    ghost var ever: set<Block>  // every block ever handed out

    /** The list from root on is `list`, newest first, and doubly linked. */
    ghost predicate Chain(list: seq<Meta>)
      reads this`root, list
    {
      && root == (if list == [] then null else list[|list| - 1])
      && (forall i, j :: 0 <= i < j < |list| ==> list[i] != list[j])
      && (forall i {:trigger list[i].prev} :: 0 <= i < |list| ==> list[i].prev == if i == 0 then null else list[i - 1])
      && (forall i {:trigger list[i].next} :: 0 <= i < |list| ==>
           list[i].next == if i == |list| - 1 then null else list[i + 1])
    }

    ghost predicate Linked()
      reads this`root, this`live, live
    {
      Chain(live) && forall i :: 0 <= i < |live| ==> live[i].isActive
    }

    ghost predicate Counted()
      reads this`nactive, this`activeSize, this`ntotal, this`live, this`ever
    {
      && nactive == |live| && activeSize == TotalSize(Blocks(live)) && ntotal >= nactive && (ntotal == 0 ==> ever == {})
      && AllApart(Blocks(live)) && (forall i :: 0 <= i < |live| ==>
           live[i].AsBlock() in ever && live[i].payload.Length == live[i].size)
    }

    /** Every m61_meta in memory is that of a live block, or inactive. */
    ghost predicate Remembered()
      reads this`memory, this`live, this`freed, freed
    {
      && (forall i :: 0 <= i < |live| ==> live[i].addr in memory && memory[live[i].addr] == live[i])
      && (forall a :: a in memory ==> memory[a].addr == a && (memory[a] in live || memory[a] in freed))
      && forall m :: m in freed ==> !m.isActive
    }

    /** heap_min and heap_max are the bounds of the blocks ever handed out. */
    ghost predicate Bracketed()
      reads this`ever, this`heapMin, this`heapMax
    {
      Bounds(ever, heapMin, heapMax)
    }

    ghost predicate Valid()
      reads this, live, freed
    {
      Linked() && Counted() && Remembered() && Bracketed()
    }

    constructor ()
      ensures Valid() && live == [] && ever == {} && fresh(this)
      ensures nactive == activeSize == ntotal == totalSize == nfail == failSize == 0
    {
      root, memory := null, map[];
      nactive, activeSize, ntotal, totalSize, nfail, failSize, heapMin, heapMax := 0, 0, 0, 0, 0, 0, 0, 0;
      live, freed, ever := [], {}, {};
    }

    /** m61_malloc; `base` is what malloc returns if it is called, `junk` the bytes found there. */
    method Malloc(sz: nat, file: string, line: int, base: nat, junk: seq<Byte>) returns (ptr: nat)
      requires Valid() && sz < 0x1_0000_0000 && |junk| == sz && MayReturn(Blocks(live), base, sz)
      modifies this, live
      ensures Valid() && (ptr == 0 <==> Rejected(sz) || base == 0)
      ensures ptr == 0 ==>
        && live == old(live) && ever == old(ever) && nfail == old(nfail) + 1 && failSize == old(failSize) + sz
        && ntotal == old(ntotal) && totalSize == old(totalSize) && nactive == old(nactive)
             && activeSize == old(activeSize)
      ensures ptr != 0 ==>
        && ptr % 8 == 0 && ptr == base + 32
        && |live| == |old(live)| + 1 && live[..|old(live)|] == old(live)
        && fresh(live[|old(live)|]) && fresh(live[|old(live)|].payload) && live[|old(live)|].payload[..] == junk
        && Blocks(live) == Blocks(old(live)) + [Block(ptr, sz, file, line)]
        && ever == old(ever) + {Block(ptr, sz, file, line)}
        && ntotal == old(ntotal) + 1 && totalSize == old(totalSize) + sz && nactive == old(nactive) + 1
        && nfail == old(nfail) && failSize == old(failSize)
      ensures freed == old(freed)
    {
      hide Linked, Counted, Remembered, TotalSize, AllApart, Bounds;
      RejectedExactly(sz);
      var pad, newSz := FindPad(META), BlockSize(sz);
      if newSz < sz || sz >= 0x8000_0000 || base == 0 {
        nfail, failSize := nfail + 1, failSize + sz;
        return 0;
      }
      Widen(Block(base + META + pad, sz, file, line), base, newSz);
      Place(sz, file, line, base + pad, junk);
      ptr := base + META + pad;
    }

    /** heap_min and heap_max with the new block. */
    method Widen(b: Block, base: nat, newSz: nat)
      requires Bounds(ever, heapMin, heapMax) && base == b.From() && base + newSz == b.To() && base > 0 && newSz > 0
      modifies this`heapMin, this`heapMax
      ensures Bounds(ever + {b}, heapMin, heapMax)
    {
      BoundsGrow(ever, heapMin, heapMax, b);
      if heapMin == 0 || base < heapMin {
        heapMin := base;
      }
      if base + newSz > heapMax {
        heapMax := base + newSz;
      }
    }

    /** The new block at the address of its metadata. */
    method Place(sz: nat, file: string, line: int, addr: nat, junk: seq<Byte>)
      requires Linked() && Counted() && Remembered() && |junk| == sz
      requires var b := Block(addr + META, sz, file, line);
        Bounds(ever + {b}, heapMin, heapMax) && forall i :: 0 <= i < |live| ==> Apart(Blocks(live)[i], b)
      modifies this`root, this`memory, this`live, this`ever, this`ntotal, this`nactive, this`totalSize,
          this`activeSize, live
      ensures Linked() && Counted() && Remembered() && Bracketed()
      ensures |live| == |old(live)| + 1 && live[..|old(live)|] == old(live)
      ensures fresh(live[|old(live)|]) && fresh(live[|old(live)|].payload) && live[|old(live)|].payload[..] == junk
      ensures Blocks(live) == Blocks(old(live)) + [Block(addr + META, sz, file, line)]
      ensures ever == old(ever) + {Block(addr + META, sz, file, line)}
      ensures ntotal == old(ntotal) + 1 && totalSize == old(totalSize) + sz && nactive == old(nactive) + 1
    {
      hide Linked, Counted, Remembered, TotalSize, AllApart;
      var payload := new Byte[sz](i requires 0 <= i < sz => junk[i]);
      var meta := new Meta(addr, sz, file, line, payload);
      Adopt(meta);
    }

    /** The second half of m61_malloc: the new block enters the list and the statistics, over what was in its memory. */
    method Adopt(meta: Meta)
      requires Linked() && Counted() && Remembered()
      requires meta !in live && meta !in freed && meta.isActive && meta.next == null && meta.prev == null
      requires Bounds(ever + {meta.AsBlock()}, heapMin, heapMax)
      requires meta.payload.Length == meta.size
      requires forall i :: 0 <= i < |live| ==> Apart(Blocks(live)[i], meta.AsBlock())
      modifies this`root, this`memory, this`live, this`ever, this`ntotal, this`nactive, this`totalSize, this`activeSize
      modifies meta`next, meta`prev, live
      ensures live == old(live) + [meta] && ever == old(ever) + {meta.AsBlock()}
      ensures Linked() && Counted() && Remembered() && Bracketed()
      ensures Blocks(live) == Blocks(old(live)) + [meta.AsBlock()]
      ensures ntotal == old(ntotal) + 1 && totalSize == old(totalSize) + meta.size && nactive == old(nactive) + 1
    {
      hide Linked, Remembered, TotalSize, AllApart;
      BlocksAppend(live, meta);
      Enter(meta);
      ever := ever + {meta.AsBlock()};
      ntotal, nactive, totalSize, activeSize := ntotal + 1, nactive + 1, totalSize + meta.size, activeSize + meta.size;
    }

    /** The list and the memory with the new block. */
    method Enter(meta: Meta)
      requires Linked() && Remembered() && meta !in live && meta !in freed && meta.isActive && meta.next == null
      requires meta.prev == null
      requires forall i :: 0 <= i < |live| ==> Apart(Blocks(live)[i], meta.AsBlock())
      modifies this`root, this`memory, this`live, meta`next, meta`prev, live
      ensures live == old(live) + [meta] && Linked() && Remembered()
    {
      hide Chain;
      FreedApart();
      Link(meta);
      Overwrite(meta);
      live := live + [meta];
    }

    /** No live block's metadata counts as freed. */
    lemma FreedApart()
      requires Linked() && Remembered()
      ensures forall i :: 0 <= i < |live| ==> live[i] !in freed
    {}

    /** The block's memory holds the new metadata, and none that was there before. */
    method Overwrite(meta: Meta)
      requires forall i :: 0 <= i < |live| ==> Apart(Blocks(live)[i], meta.AsBlock())
      requires forall i :: 0 <= i < |live| ==> live[i].addr in memory && memory[live[i].addr] == live[i]
      requires forall a :: a in memory ==> memory[a].addr == a && (memory[a] in live || memory[a] in freed)
      modifies this`memory
      ensures forall i :: 0 <= i < |live| ==> live[i].addr in memory && memory[live[i].addr] == live[i]
      ensures meta.addr in memory && memory[meta.addr] == meta
      ensures forall a :: a in memory ==>
        memory[a].addr == a && (memory[a] == meta || memory[a] in live || memory[a] in freed)
    {
      var from, to := meta.addr - 4, meta.addr + META + meta.size + FOOT;
      forall i | 0 <= i < |live| ensures live[i].addr + META <= from || to <= live[i].addr {
        assert Apart(Blocks(live)[i], meta.AsBlock());
      }
      memory := (map a | a in memory && (a + META <= from || to <= a) :: memory[a])[meta.addr := meta];
    }

    lemma BlocksAppend(list: seq<Meta>, meta: Meta)
      requires AllApart(Blocks(list)) && forall i :: 0 <= i < |list| ==> Apart(Blocks(list)[i], meta.AsBlock())
      ensures Blocks(list + [meta]) == Blocks(list) + [meta.AsBlock()] && AllApart(Blocks(list + [meta]))
      ensures TotalSize(Blocks(list + [meta])) == TotalSize(Blocks(list)) + meta.size
    {
      assert Blocks(list + [meta]) == Blocks(list) + [meta.AsBlock()];
      TotalAppend(Blocks(list), meta.AsBlock());
    }

    /**
     * m61_free of a pointer behind which memory holds an m61_meta: a live block leaves the list; the
     * pointer of a block freed before is reported, with the live block it lies in now, and nothing changes.
     */
    method Free(ptr: nat) returns (reports: seq<Report>)
      requires Valid() && (ntotal == 0 || (ptr >= META && ptr - META in memory))
      modifies this, live
      ensures Valid() && ever == old(ever) && ntotal == old(ntotal) && totalSize == old(totalSize)
      ensures nfail == old(nfail) && failSize == old(failSize) && heapMin == old(heapMin) && heapMax == old(heapMax)
      ensures var bs := Blocks(old(live)); var k, n := AtPtr(bs, ptr), Find(bs, ptr);
        if old(ntotal) == 0 then reports == [NotInHeap] && live == old(live)
        else if k == -1 then
          && live == old(live) && freed == old(freed)
          && reports == (if bs == [] then [NothingAllocated] else [])
               + [NotAllocated(if n == -1 then None else Some(bs[n]))]
        else
          && reports == [] && live == Without(old(live), k) && Blocks(live) == Without(bs, k)
          && freed == old(freed) + {old(live)[k]} && ptr - META in memory
      ensures nactive == |live| && memory == old(memory)
    {
      hide Linked, Bracketed, TotalSize, AllApart, Without;
      if ntotal == 0 {
        return [NotInHeap];
      }
      reports := if nactive == 0 || ptr == 0 then [NothingAllocated] else [];
      var meta := memory[ptr - META];
      ghost var k := AtPtr(Blocks(live), ptr);
      ActiveIsLive(ptr);
      if !meta.isActive {
        RootIsNewest();
        var found := FindMeta(ptr, root, |live|);
        assert live[..|live|] == live;
        reports := reports + [NotAllocated(if found == null then None else Some(found.AsBlock()))];
      } else if meta.prev != null && meta.prev.next != meta {
        reports := reports + [NotAllocated(None)];
      } else {
        FreeLive(meta, k);
      }
    }

    /** An m61_meta is active exactly if its payload is a live block. */
    lemma ActiveIsLive(ptr: nat)
      requires Valid() && ptr >= META && ptr - META in memory
      ensures var k := AtPtr(Blocks(live), ptr); var m := memory[ptr - META];
        && (m.isActive <==> k != -1) && (k != -1 ==> m == live[k] && (m.prev != null ==> m.prev.next == m))
    {
      hide Chain, AllApart, TotalSize, Bracketed;
      var k := AtPtr(Blocks(live), ptr);
      var m := memory[ptr - META];
      if k != -1 {
        LinkedFacts(k);
      }
      if m in live {
        var i :| 0 <= i < |live| && live[i] == m;
        assert Blocks(live)[i].ptr == ptr;
      }
    }

    /** The branch of m61_free that frees. */
    method FreeLive(meta: Meta, ghost k: nat)
      requires Valid() && k < |live| && live[k] == meta
      modifies this, live
      ensures Valid() && live == Without(old(live), k) && Blocks(live) == Without(Blocks(old(live)), k)
      ensures freed == old(freed) + {meta}
      ensures ever == old(ever) && memory == old(memory) && nactive == old(nactive) - 1
      ensures ntotal == old(ntotal) && totalSize == old(totalSize) && nfail == old(nfail) && failSize == old(failSize)
      ensures heapMin == old(heapMin) && heapMax == old(heapMax)
    {
      hide TotalSize, AllApart, Without, Linked, Remembered;
      assert meta.AsBlock() in ever;
      nactive, activeSize := nactive - 1, activeSize - meta.size;
      // the bracket gives way to a neighbour of the block, were the block outside it
      var nextAddr := if meta.next == null then 0 else meta.next.addr;
      var prevAddr := if meta.prev == null then 0 else meta.prev.addr;
      heapMin := if meta.addr < heapMin then nextAddr else heapMin;
      heapMax := if meta.addr + META + meta.size > heapMax then prevAddr else heapMax;
      Drop(meta, k);
    }

    lemma RootIsNewest()
      requires Linked()
      ensures root == if live == [] then null else live[|live| - 1]
    {}

    /** A live block is active, and its neighbours point back at it. */
    lemma LinkedFacts(k: nat)
      requires Linked() && k < |live|
      ensures live[k].isActive && live[k].prev == (if k == 0 then null else live[k - 1])
      ensures live[k].prev != null ==> live[k].prev.next == live[k]
    {}

    /** The end of m61_free: the block leaves the list. */
    method Drop(meta: Meta, ghost k: nat)
      requires Linked() && Remembered() && k < |live| && live[k] == meta && AllApart(Blocks(live))
      modifies this`root, this`live, this`freed, live
      ensures Linked() && Remembered() && live == Without(old(live), k) && freed == old(freed) + {meta}
      ensures AllApart(Blocks(live))
      ensures Blocks(live) == Without(Blocks(old(live)), k) && |live| == |old(live)| - 1
      ensures TotalSize(Blocks(live)) == TotalSize(Blocks(old(live))) - meta.size
      ensures forall i :: 0 <= i < |live| ==> live[i] == old(live)[if i < k then i else i + 1]
    {
      hide TotalSize, AllApart, Chain, Without;
      ghost var rest := Without(live, k);
      BlocksWithout(live, k);
      WithoutAt(live, k);
      FreedApart();
      KeptOrDropped(live, k);
      Unlink(meta, k);
      live, freed := rest, freed + {meta};
    }

    lemma KeptOrDropped(list: seq<Meta>, k: nat)
      requires k < |list|
      ensures forall m :: m in list ==> m == list[k] || m in Without(list, k)
      ensures forall m :: m in Without(list, k) ==> m in list
    {
      forall m | m in list && m != list[k] ensures m in Without(list, k) {
        var i :| 0 <= i < |list| && list[i] == m;
        assert m == Without(list, k)[if i < k then i else i - 1];
      }
    }

    /** Puts meta in front of the list. */
    method Link(meta: Meta)
      requires Chain(live) && meta !in live && meta.next == null && meta.prev == null
      modifies this`root, meta`next, meta`prev, live
      ensures Chain(live + [meta]) && forall i :: 0 <= i < |live| ==> live[i].isActive == old(live[i].isActive)
    {
      assert forall i :: 0 <= i < |live| ==> (live + [meta])[i] == live[i] && live[i] != meta;
      if root == null {
        root := meta;
        root.next, root.prev := null, null;
      } else {
        root.next := meta;
        meta.prev := root;
        root := meta;
      }
      ghost var list := live + [meta];
      forall i | 0 <= i < |list|
        ensures list[i].prev == (if i == 0 then null else list[i - 1])
          && list[i].next == if i == |list| - 1 then null else list[i + 1]
      {
        assert i < |live| ==> list[i] == live[i];
        assert 0 < i <= |live| ==> list[i - 1] == live[i - 1];
        assert i < |live| - 1 ==> list[i + 1] == live[i + 1] && live[i] != live[|live| - 1];
      }
    }

    /** Takes meta, which is live[k], out of the list; it is no longer active. */
    method Unlink(meta: Meta, ghost k: nat)
      requires k < |live| && live[k] == meta && Chain(live)
      modifies this`root, live
      ensures Chain(Without(live, k)) && !meta.isActive
      ensures forall i :: 0 <= i < |live| && i != k ==> live[i].isActive == old(live[i].isActive)
    {
      hide Without;
      WithoutAt(live, k);
      meta.isActive := false;
      ghost var rest := Without(live, k);
      assert meta.next != null ==> meta.next == live[k + 1] && meta.next in live;
      assert meta.prev != null ==> meta.prev == live[k - 1] && meta.prev in live;
      if root == meta {
        if root.prev == null {
          root := null;
        } else {
          root.prev.next := null;
          root := root.prev;
        }
      } else {
        if meta.next != null {
          meta.next.prev := meta.prev;
        }
        if meta.prev != null {
          meta.prev.next := meta.next;
        }
      }
      forall i | 0 <= i < |rest|
        ensures rest[i].prev == (if i == 0 then null else rest[i - 1])
          && rest[i].next == if i == |rest| - 1 then null else rest[i + 1]
      {
        ghost var j := if i < k then i else i + 1;
        assert i > 0 ==> rest[i - 1] == live[if i - 1 < k then i - 1 else i];
        assert i < |rest| - 1 ==> rest[i + 1] == live[if i + 1 < k then i + 1 else i + 2];
        assert old(live[j].prev) == (if j == 0 then null else live[j - 1]);
        assert old(live[j].next) == (if j == |live| - 1 then null else live[j + 1]);
      }
    }

    /** memcpy from live[k] to the newest block of what fits there. */
    method CopyPayload(ptr: nat, newPtr: nat, sz: nat, ghost k: nat)
      requires Valid() && k < |live| - 1 && live[k].AsBlock().ptr == ptr
      requires live[|live| - 1].AsBlock().ptr == newPtr && live[|live| - 1].size == sz
      requires live[|live| - 1].payload != live[k].payload
      modifies live[|live| - 1].payload
      ensures live[k].payload.Length == live[k].size && live[|live| - 1].payload.Length == sz
      ensures forall i :: 0 <= i < live[k].size && i < sz ==> live[|live| - 1].payload[i] == live[k].payload[i]
    {
      hide TotalSize, AllApart, Linked;
      var from, to := memory[ptr - META], memory[newPtr - META];
      var n := if from.size < sz then from.size else sz;
      forall i | 0 <= i < n {
        to.payload[i] := from.payload[i];
      }
    }

    /** m61_realloc of NULL or a live pointer: the old block is freed in every case, also when no new one was found. */
    method Realloc(ptr: nat, sz: nat, file: string, line: int, base: nat, junk: seq<Byte>) returns (newPtr: nat)
      requires Valid() && sz < 0x1_0000_0000 && |junk| == sz && MayReturn(Blocks(live), base, sz)
      requires ptr != 0 ==> AtPtr(Blocks(live), ptr) != -1
      modifies this, live
      ensures Valid() && (newPtr == 0 <==> sz == 0 || Rejected(sz) || base == 0)
      ensures Blocks(live) == AfterRealloc(Blocks(old(live)), ptr, sz, file, line, base)
      ensures ever == old(ever) + if newPtr == 0 then {} else {Block(newPtr, sz, file, line)}
      ensures forall x :: x in live ==> x in old(live) || fresh(x)
      ensures newPtr != 0 ==>
        newPtr == base + 32 && |live| > 0 && fresh(live[|live| - 1]) && fresh(live[|live| - 1].payload)
      ensures newPtr != 0 && ptr != 0 ==>
        var was, now := old(live)[AtPtr(Blocks(old(live)), ptr)], live[|live| - 1];
        forall i :: 0 <= i < was.size && i < sz ==> now.payload[i] == old(was.payload[i])
      ensures ntotal == old(ntotal) + (if newPtr == 0 then 0 else 1)
        && totalSize == old(totalSize) + if newPtr == 0 then 0 else sz
      ensures var failed := sz != 0 && newPtr == 0;
        nfail == old(nfail) + (if failed then 1 else 0) && failSize == old(failSize) + if failed then sz else 0
    {
      hide Linked, Counted, Remembered, Bracketed, TotalSize, AllApart, Without, Rejected;
      ghost var k, bs := AtPtr(Blocks(live), ptr), Blocks(live);
      newPtr := 0;
      if sz != 0 {
        newPtr := Malloc(sz, file, line, base, junk);
      }
      if ptr != 0 {
        if newPtr != 0 {
          assert live == old(live) + [live[|bs|]];
          WithoutAppend(old(live), live[|bs|], k);
          WithoutAppend(bs, Block(newPtr, sz, file, line), k);
          MoveContents(ptr, newPtr, sz, k);
        }
        FreeOld(ptr, k);
      }
    }

    /** The copy of m61_realloc keeps the allocator as it is. */
    method MoveContents(ptr: nat, newPtr: nat, sz: nat, ghost k: nat)
      requires Valid() && k < |live| - 1 && live[k].AsBlock().ptr == ptr
      requires live[|live| - 1].AsBlock().ptr == newPtr && live[|live| - 1].size == sz
      requires live[|live| - 1].payload != live[k].payload
      modifies live[|live| - 1].payload
      ensures Valid()
      ensures forall i :: 0 <= i < live[k].size && i < sz ==>
        live[|live| - 1].payload[i] == live[k].payload[i] == old(live[k].payload[i])
    {
      hide Linked, Remembered, Bracketed, TotalSize, AllApart;
      CopyPayload(ptr, newPtr, sz, k);
    }

    /** The free at the end of m61_realloc. */
    method FreeOld(ptr: nat, ghost k: nat)
      requires Valid() && k < |live| && live[k].AsBlock().ptr == ptr
      modifies this, live
      ensures Valid() && live == Without(old(live), k) && Blocks(live) == Without(Blocks(old(live)), k)
      ensures ever == old(ever) && ntotal == old(ntotal) && totalSize == old(totalSize) && nfail == old(nfail)
      ensures failSize == old(failSize)
      ensures forall x :: x in live ==> x in old(live)
    {
      hide Linked, Bracketed, TotalSize, AllApart;
      KnownPtr(k);
      var reports := Free(ptr);
    }

    lemma KnownPtr(k: nat)
      requires Valid() && k < |live|
      ensures ntotal > 0 && live[k].addr in memory && AtPtr(Blocks(live), live[k].AsBlock().ptr) == k
    {
      AtPtrExact(Blocks(live), k);
    }

    /** find_meta on the list from `node`, its n-th node, on. */
    method FindMeta(p: nat, node: Meta?, ghost n: nat) returns (found: Meta?)
      requires Valid() && n <= |live| && node == if n == 0 then null else live[n - 1]
      ensures var k := Find(Blocks(live[..n]), p); found == if k == -1 then null else live[k]
      decreases n
    {
      hide Linked, Counted, Bracketed, Remembered;
      if node == null {
        return null;
      }
      LinkedFacts(n - 1);
      assert Blocks(live[..n])[..n - 1] == Blocks(live[..n - 1]);
      if node.addr + META <= p <= node.addr + META + node.size {
        return node;
      }
      found := FindMeta(p, node.prev, n - 1);
    }

    /** m61_printleakreport: the lines it prints are the live blocks, newest first. */
    method PrintLeakReport() returns (lines: seq<Block>)
      requires Valid()
      ensures lines == Reversed(Blocks(live)) && |lines| == nactive
    {
      hide Linked, Remembered, Bracketed, Reversed;
      lines := [];
      ghost var n: nat, bs := |live|, Blocks(live);
      RootIsNewest();
      var meta := root;
      while meta != null
        invariant n <= |live| && meta == (if n == 0 then null else live[n - 1])
        invariant |lines| == |bs| - n && forall i :: 0 <= i < |lines| ==> lines[i] == bs[|bs| - 1 - i]
        decreases n
      {
        LinkedFacts(n - 1);
        lines := lines + [Block(meta.addr + META, meta.size, meta.file, meta.line)];
        meta := meta.prev;
        n := n - 1;
      }
    }
  }

  method Perform(m: Allocator, op: Op)
    requires m.Valid() && Allowed(Blocks(m.live), op)
    modifies m, m.live
    ensures m.Valid() && Blocks(m.live) == After(Blocks(old(m.live)), op) && m.ever == old(m.ever) + Handed(op)
    ensures forall x :: x in m.live ==> x in old(m.live) || fresh(x)
  {
    hide m.Linked, m.Counted, m.Remembered, m.Bracketed;
    match op
    case DoMalloc(sz, file, line, base, junk) =>
      var p := m.Malloc(sz, file, line, base, junk);
    case DoFree(ptr) =>
      m.FreeOld(ptr, AtPtr(Blocks(m.live), ptr));
    case DoRealloc(ptr, sz, file, line, base, junk) =>
      var p := m.Realloc(ptr, sz, file, line, base, junk);
  }

  /**
   * Allocator agreement over whole runs: whatever sequence of mallocs, frees and reallocs a program
   * makes, the leak report lists exactly the live blocks, nactive and active_size are their number and
   * total size, and heap_min and heap_max are the bounds of the blocks the run has handed out.
   */
  method Session(ops: seq<Op>) returns (report: seq<Block>, nactive: int, activeSize: int, heapMin: int, heapMax: int)
    requires AllAllowed(ops)
    ensures report == Reversed(Run(ops)) && nactive == |Run(ops)| && activeSize == TotalSize(Run(ops))
    ensures Bounds(AllHanded(ops), heapMin, heapMax)
    ensures AllApart(Run(ops)) && forall i :: 0 <= i < |Run(ops)| ==> Run(ops)[i] in AllHanded(ops)
  {
    var m := new Allocator();
    assert Blocks(m.live) == [];
    for k := 0 to |ops|
      invariant m.Valid() && fresh(m) && (forall x :: x in m.live ==> fresh(x))
      invariant Blocks(m.live) == Run(ops[..k]) && m.ever == AllHanded(ops[..k])
    {
      hide m.Linked, m.Counted, m.Remembered, m.Bracketed;
      assert ops[..k + 1][..k] == ops[..k];
      Perform(m, ops[k]);
    }
    assert ops[..|ops|] == ops;
    report := m.PrintLeakReport();
    nactive, activeSize, heapMin, heapMax := m.nactive, m.activeSize, m.heapMin, m.heapMax;
    forall i | 0 <= i < |Run(ops)| ensures Run(ops)[i] in AllHanded(ops) {
      assert m.live[i].AsBlock() in m.ever;
    }
  }
}
