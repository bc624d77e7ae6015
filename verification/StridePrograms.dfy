/**
 * The loops of stridecat61 and ostridecat61 on the files of pset3/io61.c, for every stride and block
 * size. They end with None where a copy loop of io61_read or io61_write would copy past the end of
 * its request.
 */
module StridePrograms {
  import opened Common
  import opened CopyLoop
  import opened Io61
  import opened Io61Writer
  import opened Stride
  import opened StrideCached
  import opened StrideRestores

  // ---------------------------------------------------------------- one block

  /** io61_read of a block. */
  method ReadFrom(f: Reader, buf: array<Byte>, sz: nat) returns (ok: bool, block: seq<Byte>)
    requires f.Valid() && f.Shape() && sz <= buf.Length <= SIZE_MAX
    modifies f, f.cache, buf
    ensures f.Valid() && f.Shape() && ok == old(f.Fits(sz)) && |block| <= sz
    ensures ok ==> block == Slice(f.data, old(f.At()), sz) && f.At() == old(f.At()) + |block|
    ensures ok && f.At() < |f.data| ==> f.EndsAt(old(f.At() + f.FirstChunk()))
    ensures old(f.Ready()) ==> Grew(f.Offsets(), old(f.Offsets()), old(f.At()), old(f.At() + f.FirstChunk()), f.At())
  {
    hide Grew;
    var n;
    ok, n := f.Read(buf, sz);
    block := buf[..n];
  }

  /** A block from one file to the other, as both programs copy it. */
  method CopyBlock(inf: Reader, outf: Writer, buf: array<Byte>, sz: nat) returns (ok: bool, block: seq<Byte>)
    requires inf.Valid() && inf.Shape() && outf.Valid() && sz <= buf.Length <= SIZE_MAX && buf != outf.buffers[0]
    modifies inf, inf.cache, outf, outf.cache, outf.buffers[0], buf
    ensures inf.Valid() && inf.Shape() && outf.Valid()
    ensures ok == (old(inf.Fits(sz)) &&
                   Accepts(|old(outf.State()).buf|, |Slice(inf.data, old(inf.At()), sz)|))
    ensures ok ==> block == Slice(inf.data, old(inf.At()), sz) && inf.At() == old(inf.At()) + |block|
    ensures ok && inf.At() < |inf.data| ==> inf.EndsAt(old(inf.At() + inf.FirstChunk()))
    ensures old(inf.Ready()) ==>
      Grew(inf.Offsets(), old(inf.Offsets()), old(inf.At()), old(inf.At() + inf.FirstChunk()), inf.At())
    ensures ok ==>
      outf.State() == if block == [] then old(outf.State()) else Emptied(PutBytes(old(outf.State()), block))
  {
    hide Slice, Emptied, PutBytes, Reader.Valid, Reader.At, Reader.Ready, Reader.FirstChunk, Reader.Fits, Grew;
    SliceAtMost(inf, sz);
    ok, block := ReadFrom(inf, buf, sz);
    if ok && |block| > 0 {
      var n;
      ok, n := outf.Write(block);
      assert block[..|block|] == block;
    }
  }

  lemma SliceAtMost(f: Reader, sz: nat)
    requires f.Valid()
    ensures |Slice(f.data, f.At(), sz)| <= INT_MAX
  {}

  lemma AtStart(f: Reader)
    requires f.Valid() && f.curr == -1
    ensures f.Shape() && f.At() == 0 && InOrder(f)
  {}

  lemma FileOf(f: Writer)
    requires f.Valid()
    ensures f.State().file == f.file && |f.State().buf| <= BUFFER_SIZE
  {}

  lemma OpenedFile()
    ensures Flushed(Cached([], 0, []).(fd := 0)) == Cached([], 0, [])
  {}

  lemma FlushEmpty(out: Plain)
    ensures Flushed(Cached(out.file, out.fd, [])).file == out.file
  {}

  // ---------------------------------------------------------------- the cursor

  /** With blocks longer than the stride, the loops stop before the block size changes. */
  ghost predicate Wide(n: nat, b: nat, k: Cursor) { k.written < n ==> k.block == b && k.pos <= k.written }

  lemma WideTurn(n: nat, t: nat, b: nat, k: Cursor, a: nat)
    requires 1 <= t < b && Wide(n, b, k) && k.written < n && (a == Min(b, n - k.written) || a == Min(b, n - k.pos))
    ensures Wide(n, b, Advance(n, t, k, a)) && (Advance(n, t, k, a).pos < n || Advance(n, t, k, a).pos < t + b)
  {}

  /** ostridecat61 at k. */
  ghost predicate Unstriding(n: nat, t: nat, b: nat, k: Cursor) {
    if b <= t then Ahead(n, t, b, k) else Wide(n, b, k)
  }

  lemma UnstridingStart(n: nat, t: nat, b: nat)
    requires 1 <= b && 1 <= t <= SIZE_MAX
    ensures Unstriding(n, t, b, Start(b))
  {
    if b <= t {
      StartAhead(n, t, b);
    }
  }

  lemma UnstridingTurn(n: nat, t: nat, b: nat, k: Cursor)
    requires 1 <= b && 1 <= t && Unstriding(n, t, b, k) && k.written < n
    ensures 0 < k.block <= b && Unstriding(n, t, b, Advance(n, t, k, Min(k.block, n - k.written)))
  {
    if b <= t {
      AheadBlock(n, t, b, k);
      AheadTurn(n, t, b, k);
    } else {
      WideTurn(n, t, b, k, Min(b, n - k.written));
    }
  }

  /** "Move file position to next stride", after a block at k. */
  method MoveOn(n: nat, t: nat, pos0: nat, block0: nat, ghost k: Cursor, amount: nat)
    returns (pos: nat, blocksize: nat)
    requires t >= 1 && k.pos == pos0 && k.block == block0
    ensures Advance(n, t, k, amount) == Cursor(pos, blocksize, k.written + amount)
  {
    hide Advance;
    pos, blocksize := NextBlock(n, t, pos0, block0);
    assert k == Cursor(pos0, block0, k.written);
  }

  // ---------------------------------------------------------------- ostridecat61

  /** Read in order from its start, the file's blocks are whole buffers. */
  ghost predicate InOrder(f: Reader)
    requires f.Valid()
    reads f, f.cache
  {
    f.At() < |f.data| ==> f.FirstChunk() == Min(BUFFER_SIZE - f.At() % BUFFER_SIZE, |f.data| - f.At())
  }

  /** The block that a read in order leaves current. */
  lemma StaysInOrder(f: Reader, p: nat, first: nat)
    requires f.Valid() && p <= f.At() < |f.data| && f.EndsAt(p + first)
    requires first == Min(BUFFER_SIZE - p % BUFFER_SIZE, |f.data| - p)
    ensures InOrder(f)
  {
    f.ReadyFacts();
  }

  lemma OrderServed(f: Reader, k: Cursor)
    requires f.Valid() && InOrder(f) && f.At() == k.written < |f.data|
    ensures TurnServed(|f.data|, k) <==> f.Fits(k.block) && Accepts(0, Min(k.block, |f.data| - k.written))
  {}

  /** A block that ostridecat61 copies, with nothing collected before. */
  method OrderBlock(inf: Reader, outf: Writer, buf: array<Byte>, sz: nat, ghost k: Cursor, ghost out: Plain)
    returns (ok: bool, block: seq<Byte>)
    requires inf.Valid() && inf.Shape() && outf.Valid() && sz <= buf.Length <= SIZE_MAX && buf != outf.buffers[0]
    requires InOrder(inf) && inf.At() == k.written < |inf.data| && k.block == sz > 0
    requires outf.State() == Cached(out.file, out.fd, [])
    modifies inf, inf.cache, outf, outf.cache, outf.buffers[0], buf
    ensures inf.Valid() && inf.Shape() && outf.Valid() && ok == TurnServed(|inf.data|, k)
    ensures ok ==> block == Slice(inf.data, k.written, sz) != [] && |block| <= INT_MAX
    ensures ok ==> inf.At() == k.written + |block| && InOrder(inf)
    ensures ok ==> CachedStep(Cached(out.file, out.fd, []), PutBlock(block)) == Some(outf.State())
  {
    hide PutBytes, Emptied, TurnServed, Accepts, Slice;
    hide Reader.Valid, Reader.At, Reader.Ready, Reader.FirstChunk, Reader.Fits, Reader.EndsAt;
    hide Writer.Valid, Writer.State, Grew, InOrder;
    ghost var first := inf.FirstChunk();
    OrderServed(inf, k);
    OrderIs(inf);
    BlockAt(inf.data, k.written, sz);
    SliceSize(inf.data, k.written, sz);
    SliceAtMost(inf, sz);
    ok, block := CopyBlock(inf, outf, buf, sz);
    if ok {
      if inf.At() < |inf.data| {
        StaysInOrder(inf, k.written, first);
      } else {
        OrderAtEnd(inf);
      }
    }
  }

  /** The copy loop of ostridecat61, and io61_close. */
  method CachedOStrideCat(input: seq<Byte>, t: nat, b: nat) returns (r: Option<seq<Byte>>)
    requires 1 <= b && 1 <= t && t + b < 0x8000_0000_0000_0000 && |input| <= INT_MAX
    ensures r == FileLeft(CachedUnstrided(input, t, Start(b), Plain([], 0)))
  {
    hide Slice, WriteAt, Advance, CachedUnstrided, Put, BlockAndSeek, Unstriding, CachedStep, TurnServed, Accepts;
    hide Reader.Valid, Reader.At, Writer.Valid, Writer.State, InOrder, Flushed;
    var inf := new Reader(input);
    AtStart(inf);
    var outf := new Writer([]);
    var buf := new Byte[b](i => 0);
    var q := outf.Seek(0);
    ghost var n, k, out := |input|, Start(b), Plain([], 0);
    var pos: nat, written: nat, blocksize: nat := 0, 0, b;
    UnstridingStart(n, t, b);
    OpenedFile();
    while written < |input|
      invariant inf.Valid() && inf.Shape() && inf.At() == written && InOrder(inf)
      invariant k == Cursor(pos, blocksize, written) && Unstriding(n, t, b, k)
      invariant outf.Valid() && outf.State() == Cached(out.file, out.fd, [])
      invariant CachedUnstrided(input, t, Start(b), Plain([], 0)) == CachedUnstrided(input, t, k, out)
    {
      UnstridingTurn(n, t, b, k);
      SliceSize(input, written, blocksize);
      CachedTurn(input, t, k, out);
      var ok, block := OrderBlock(inf, outf, buf, blocksize, k, out);
      if !ok {
        return None;
      }
      if |block| <= 0 {
        break;
      }
      written := written + |block|;
      pos, blocksize := MoveOn(|input|, t, pos, blocksize, k, |block|);
      AfterBlock(out, block, pos);
      q := outf.Seek(pos);
      out, k := BlockAndSeek(out, block, pos), Cursor(pos, blocksize, written);
    }
    CachedStop(input, t, k, out);
    q := outf.Flush();
    FileOf(outf);
    FlushEmpty(out);
    r := Some(outf.file);
  }

  /** io61_seek behind a block. */
  lemma AfterBlock(out: Plain, block: Buffer, next: nat)
    ensures var s := CachedStep(Cached(out.file, out.fd, []), PutBlock(block)); var p := BlockAndSeek(out, block, next);
      s.Some? ==> Flushed(s.value.(fd := next)) == Cached(p.file, p.fd, [])
  {
    hide Accepts, Emptied, PutBytes, Flushed, BlockAndSeek;
    if Accepts(0, |block|) {
      BlockAndSeekIs(out, block, next);
    }
  }

  lemma OrderIs(f: Reader)
    requires f.Valid() && InOrder(f) && f.At() < |f.data|
    ensures f.FirstChunk() == Min(BUFFER_SIZE - f.At() % BUFFER_SIZE, |f.data| - f.At())
  {}

  lemma OrderAtEnd(f: Reader)
    requires f.Valid() && f.At() >= |f.data|
    ensures InOrder(f)
  {}

  // ---------------------------------------------------------------- which reads of stridecat61 are served

  /** Block sizes for which stridecat61's reads and writes are all served: up to a buffer, or with sizes that fit. */
  predicate Serviceable(n: nat, t: nat, b: nat)
    requires 1 <= b && 1 <= t
  {
    b <= BUFFER_SIZE || (b <= t && BuffersFit(n, t, b))
  }

  /** Up to here the blocks are whole buffers. */
  ghost predicate Early(n: nat, t: nat, b: nat, k: Cursor)
    requires 1 <= b <= t
  {
    || (n <= b && Full(n) && k == Start(b))
    || (Full(b) && Aligned(n, t, b) && Full(n) && (Full(t) || n < t))
    || (Full(b) && SecondRow(n, t, b) && k == Start(b))
    || (Full(b) && FilledUp(n, t, b) && BeforeCut(n, t, b, k) && !Cut(n, k))
  }

  /** From here on they are at most a buffer long. */
  ghost predicate Late(n: nat, t: nat, b: nat, k: Cursor)
    requires 1 <= b <= t
  {
    || (SecondRow(n, t, b) && k == Cursor(t, b, b))
    || (Full(b) && FilledUp(n, t, b) && BeforeCut(n, t, b, k) && Cut(n, k))
    || (FilledUp(n, t, b) && k.pos == t - t % b && k.block == t % b)
  }

  /** A request that is served whatever the cache and the buffer hold. */
  predicate Easy(n: nat, k: Cursor)
    requires k.pos < n
  {
    (k.block <= BUFFER_SIZE || n - k.pos <= k.block) && Len(n, k) <= BUFFER_SIZE
  }

  /** Rows start with buffers, counted from the row's start. */
  predicate OnGrid(t: nat, o: nat) { if o < t then Full(o) else Full(o - t) }

  /** A request of whole buffers, from a place where a block in the cache starts if it holds the place. */
  ghost predicate Straight(n: nat, t: nat, b: nat, k: Cursor)
    requires k.pos < n
  {
    && Full(Len(n, k)) && (n - k.pos <= k.block || Full(k.block)) && OnGrid(t, k.pos)
    && (k.pos < t || Full(t) || t >= b + BUFFER_SIZE)
  }

  lemma StartsWell(n: nat, t: nat, b: nat)
    requires 1 <= b <= t && BuffersFit(n, t, b) && n > 0
    ensures Early(n, t, b, Start(b))
  {
    if n > b && !Aligned(n, t, b) {
      StartBeforeCut(n, t, b);
    }
  }

  lemma EarlyFacts(n: nat, t: nat, b: nat, k: Cursor)
    requires Halfway(n, t, b, k) && k.written < n && 1 <= b <= t && b > BUFFER_SIZE && Early(n, t, b, k)
    ensures k.pos < n && k.block > 0 && Straight(n, t, b, k)
  {
    hide CursorOk, Route;
    RouteStep(n, t, b, k);
    BlockFits(n, t, b, k);
    var c := k.pos % t;
    if Full(b) && Aligned(n, t, b) && Full(n) && (Full(t) || n < t) {
      AlignedStraight(n, t, b, k);
    } else if Full(b) && FilledUp(n, t, b) && BeforeCut(n, t, b, k) && !Cut(n, k) {
      CutStraight(n, t, b, k);
    }
  }

  lemma AlignedStraight(n: nat, t: nat, b: nat, k: Cursor)
    requires CursorOk(n, t, b, k) && k.pos < n && k.block > 0 && 1 <= b <= t
    requires Full(b) && Full(n) && (Full(t) || n < t)
    ensures Straight(n, t, b, k)
  {
    hide CursorOk;
    LenWhole(n, t, b, k);
    PosWhole(n, t, b, k);
    BlockFits(n, t, b, k);
    if k.pos >= t {
      Difference(k.pos, t);
    }
    if Full(t) {
      Difference(t, k.pos % t);
    }
  }

  lemma CutStraight(n: nat, t: nat, b: nat, k: Cursor)
    requires CursorOk(n, t, b, k) && k.pos < n && k.block > 0 && 1 <= b <= t && BUFFER_SIZE < b
    requires Full(b) && FilledUp(n, t, b) && BeforeCut(n, t, b, k) && !Cut(n, k)
    ensures Straight(n, t, b, k)
  {
    hide CursorOk;
    BeforeCutBlock(n, t, b, k);
    BlockFits(n, t, b, k);
    ColumnFull(k.pos % t, b);
    if k.pos < t {
      DivUnique(k.pos, t, 0, k.pos);
    } else {
      DivUnique(k.pos, t, 1, k.pos - t);
      LongStride(n, t, b, k.pos - t);
    }
  }

  /** With two columns of full blocks and a narrow one, the stride is more than a buffer longer than a block. */
  lemma LongStride(n: nat, t: nat, b: nat, c: nat)
    requires 1 <= b <= t && BUFFER_SIZE < b && FilledUp(n, t, b) && t + c + b <= n
    ensures t >= b + BUFFER_SIZE
  {
    Quotient(t, b);
    DivUnique(t - t % b, b, t / b, 0);
    LastMultiple(b, t, b);
    if t - t % b > b {
      MultipleGap(b, t - t % b, b);
    }
  }

  lemma LateFacts(n: nat, t: nat, b: nat, k: Cursor)
    requires Halfway(n, t, b, k) && k.written < n && 1 <= b <= t && b > BUFFER_SIZE && Late(n, t, b, k)
    ensures k.pos < n && k.block > 0 && Easy(n, k)
  {
    hide CursorOk, Route, Aligned;
    RouteStep(n, t, b, k);
    if Full(b) && FilledUp(n, t, b) && BeforeCut(n, t, b, k) && Cut(n, k) {
      CutIsOne(n, t, b, k);
    }
  }

  /** In a file that is filled up the cut block is one buffer. */
  lemma CutIsOne(n: nat, t: nat, b: nat, k: Cursor)
    requires CursorOk(n, t, b, k) && k.pos < n && k.block > 0 && Cut(n, k) && 1 <= b <= t
    requires Full(b) && FilledUp(n, t, b) && BeforeCut(n, t, b, k)
    ensures n - k.pos == BUFFER_SIZE && k.block == b && k.pos % t + b == t - t % b
  {
    hide CursorOk;
    CutBlock(n, t, b, k);
    BlockFits(n, t, b, k);
    WhichColumn(n, t, b, k.pos % t, n - k.pos);
  }

  /** Where the loop goes from there. */
  lemma LateTurn(n: nat, t: nat, b: nat, k: Cursor)
    requires Halfway(n, t, b, k) && k.written < n && 1 <= b <= t && b > BUFFER_SIZE && Late(n, t, b, k) && k.pos < n
    requires Halfway(n, t, b, Next(n, t, k))
    ensures Next(n, t, k).written < n ==> Late(n, t, b, Next(n, t, k))
  {
    hide CursorOk, Route, Aligned;
    var k2 := Next(n, t, k);
    if SecondRow(n, t, b) && k == Cursor(t, b, b) {
    } else if Full(b) && FilledUp(n, t, b) && BeforeCut(n, t, b, k) && Cut(n, k) {
      CutIsOne(n, t, b, k);
      AdvanceOk(n, t, b, k, Len(n, k));
      BlockFits(n, t, b, k);
      BlockFits(n, t, b, k2);
    } else {
      NoneBehind(n, t, b, k);
    }
  }

  /** Behind the narrow column nothing is left. */
  lemma NoneBehind(n: nat, t: nat, b: nat, k: Cursor)
    requires Halfway(n, t, b, k) && k.pos < n && 1 <= b <= t && b > BUFFER_SIZE && FilledUp(n, t, b)
    requires k.pos == t - t % b && k.block == t % b && Halfway(n, t, b, Next(n, t, k))
    ensures Next(n, t, k).written >= n
  {
    hide CursorOk, Route;
    DivUnique(k.pos, t, 0, k.pos);
    AdvanceOk(n, t, b, k, Len(n, k));
    RouteStep(n, t, b, Next(n, t, k));
  }

  lemma EarlyTurn(n: nat, t: nat, b: nat, k: Cursor)
    requires Halfway(n, t, b, k) && k.written < n && 1 <= b <= t && b > BUFFER_SIZE && Early(n, t, b, k) && k.pos < n
    requires Halfway(n, t, b, Next(n, t, k)) && Next(n, t, k).written == k.written + Len(n, k)
    ensures var k2 := Next(n, t, k); k2.written < n ==> Early(n, t, b, k2) || Late(n, t, b, k2)
  {
    hide CursorOk, Route, Aligned, BeforeCut;
    if Full(b) && FilledUp(n, t, b) && BeforeCut(n, t, b, k) && !Cut(n, k) {
      StaysBeforeCut(n, t, b, k);
    }
  }

  lemma StaysBeforeCut(n: nat, t: nat, b: nat, k: Cursor)
    requires CursorOk(n, t, b, k) && 1 <= b <= t && k.pos < n && BeforeCut(n, t, b, k) && !Cut(n, k)
    ensures BeforeCut(n, t, b, Next(n, t, k))
  {
    BeforeCutStep(n, t, b, k);
  }

  // ---------------------------------------------------------------- the blocks in the cache

  /** The blocks in the cache start on the grid, in columns up to k's end or in later rows. */
  ghost predicate Grid(t: nat, k: Cursor, os: set<nat>)
    requires t >= 1
  {
    forall o :: o in os ==> OnGrid(t, o) && (o < t ==> o <= NextColumn(t, k))
  }

  /** A block in the cache that holds k's place starts there. */
  lemma GridFirst(n: nat, t: nat, b: nat, k: Cursor, os: set<nat>, o: nat)
    requires 1 <= t && k.pos < n && k.block <= b && Straight(n, t, b, k) && Grid(t, k, os)
    requires o in os && o <= k.pos < o + BUFFER_SIZE
    ensures o == k.pos
  {
    hide OnGrid;
    if k.pos >= t {
      RowBelow(t, k.pos);
    }
    SamePoint(t, b, k.pos, NextColumn(t, k), o);
  }

  lemma RowBelow(t: nat, pos: nat)
    requires 1 <= t <= pos
    ensures pos % t + t <= pos
  {
    Quotient(pos, t);
    MulMonotone(1, pos / t, t);
  }

  /** Two points on the grid are no less than a buffer apart, the columns before the row's end aside. */
  lemma SamePoint(t: nat, b: nat, pos: nat, end: nat, o: nat)
    requires OnGrid(t, pos) && OnGrid(t, o) && o <= pos < o + BUFFER_SIZE && (o < t ==> o <= end)
    requires pos < t || Full(t) || (t >= b + BUFFER_SIZE && end + t <= pos + b)
    ensures o == pos
  {}

  lemma StraightServed(f: Reader, t: nat, b: nat, k: Cursor)
    requires f.Valid() && f.Ready() && f.At() == k.pos < |f.data| && 1 <= t && 0 < k.block <= b
    requires Straight(|f.data|, t, b, k) && Grid(t, k, f.Offsets())
    ensures f.FirstChunk() == Min(BUFFER_SIZE, |f.data| - k.pos) && f.Fits(k.block) && Accepts(0, Len(|f.data|, k))
  {
    f.ReadyFacts();
    GridFirst(|f.data|, t, b, k, f.Offsets(), f.cache[f.curr].offset);
  }

  lemma EasyServed(f: Reader, k: Cursor, c: nat)
    requires f.Valid() && f.Ready() && f.At() == k.pos < |f.data| && c <= BUFFER_SIZE && Easy(|f.data|, k)
    ensures f.Fits(k.block) && Accepts(c, Len(|f.data|, k))
  {
    f.ReadyFacts();
  }

  /** The next block's column ends no earlier. */
  lemma ColumnsGrow(n: nat, t: nat, b: nat, k: Cursor)
    requires CursorOk(n, t, b, k) && k.pos < n && k.block > 0 && Next(n, t, k).block > 0
    ensures var k2 := Next(n, t, k);
      NextColumn(t, k) <= NextColumn(t, k2) && NextColumn(t, k) <= t && (k2.pos < t ==> k2.pos <= NextColumn(t, k2))
    ensures Next(n, t, k).pos + 2 != k.pos + Len(n, k) || Len(n, k) < BUFFER_SIZE
  {
    hide CursorOk;
    AdvanceOk(n, t, b, k, Len(n, k));
    BlockFits(n, t, b, k);
    var k2 := Next(n, t, k);
    if k2.pos < t {
      DivUnique(k2.pos, t, 0, k2.pos);
    }
    if k.pos < t {
      DivUnique(k.pos, t, 0, k.pos);
    }
  }

  /** After a block of whole buffers and a seek, the blocks in the cache are still on the grid. */
  lemma GridTurn(n: nat, t: nat, b: nat, k: Cursor, before: set<nat>, middle: set<nat>, after: set<nat>)
    requires 1 <= t && CursorOk(n, t, b, k) && k.pos < n && k.block > 0 && Straight(n, t, b, k) && Grid(t, k, before)
    requires Grew(middle, before, k.pos, k.pos + Min(BUFFER_SIZE, n - k.pos), k.pos + Len(n, k))
    requires after <= middle + {Next(n, t, k).pos} && OnGrid(t, Next(n, t, k).pos) && Next(n, t, k).block > 0
    ensures Grid(t, Next(n, t, k), after)
  {
    hide CursorOk, Advance, NextColumn, OnGrid, Full;
    ColumnsGrow(n, t, b, k);
    var k2 := Next(n, t, k);
    forall o | o in after ensures OnGrid(t, o) && (o < t ==> o <= NextColumn(t, k2)) {
      if o !in before && o != k2.pos {
        WholeDistance(o, k.pos + Min(BUFFER_SIZE, n - k.pos));
        NewOnGrid(n, t, k, o);
      }
    }
  }

  lemma WholeDistance(o: nat, edge: nat)
    ensures Full(o - edge) <==> (o - edge) % 4096 == 0
  {}

  lemma NewOnGrid(n: nat, t: nat, k: Cursor, o: nat)
    requires t >= 1 && k.pos < n && k.block > 0 && Full(Len(n, k)) && OnGrid(t, k.pos) && NextColumn(t, k) <= t
    requires k.pos < o <= k.pos + Len(n, k) && Full(o - (k.pos + Min(BUFFER_SIZE, n - k.pos)))
    ensures OnGrid(t, o) && (o < t ==> o <= NextColumn(t, k))
  {
    if k.pos < t {
      DivUnique(k.pos, t, 0, k.pos);
    }
  }

  // ---------------------------------------------------------------- stridecat61

  /** stridecat61 at k. */
  ghost predicate Striding(n: nat, t: nat, b: nat, k: Cursor) {
    if b <= t then Halfway(n, t, b, k) else Wide(n, b, k)
  }

  lemma StridingStart(n: nat, t: nat, b: nat)
    requires 1 <= b && 1 <= t <= SIZE_MAX
    ensures Striding(n, t, b, Start(b))
  {
    if b <= t {
      StartHalfway(n, t, b);
    }
  }

  lemma StridingTurn(data: seq<Byte>, t: nat, b: nat, k: Cursor)
    requires 1 <= b && 1 <= t && Striding(|data|, t, b, k) && k.written < |data|
    ensures 0 < k.block <= b && k.pos < |data|
    ensures var n := |data|;
      var block, k2 := Slice(data, k.pos, k.block), Next(n, t, k);
      && block != [] && |block| == Len(n, k) && Strided(data, t, k) == block + Strided(data, t, k2)
      && Striding(n, t, b, k2) && k2.written == k.written + |block|
      && (k2.pos < n || k2.pos < t + b) && (k2.written < n ==> k2.pos < n)
  {
    hide Strided, Advance, Slice, Halfway;
    var n := |data|;
    if b <= t {
      HalfwayTurn(data, t, b, k);
    }
    SliceSize(data, k.pos, k.block);
    BlockAt(data, k.pos, k.block);
    AdvanceWritten(n, t, k, Len(n, k));
    if b > t {
      StridedStep(data, t, k);
      WideTurn(n, t, b, k, Len(n, k));
    }
  }

  /** stridecat61 at k, having written `out`. */
  ghost predicate Strides(data: seq<Byte>, t: nat, b: nat, k: Cursor, out: seq<Byte>)
    requires 1 <= t
  {
    Striding(|data|, t, b, k) && Strided(data, t, Start(b)) == out + Strided(data, t, k)
  }

  /**
   * With sizes that fit and long blocks: the blocks that can be in the cache, and that nothing is
   * collected, as long as the loop relies on it.
   */
  ghost predicate OnTrack(n: nat, t: nat, b: nat, k: Cursor, os: set<nat>, c: nat)
    requires 1 <= b && 1 <= t
  {
    k.written < n && BUFFER_SIZE < b <= t && BuffersFit(n, t, b) ==>
      Late(n, t, b, k) || (Early(n, t, b, k) && Grid(t, k, os) && c == 0)
  }

  lemma TrackServed(f: Reader, t: nat, b: nat, k: Cursor, c: nat)
    requires f.Valid() && f.Ready() && f.At() == k.pos < |f.data| && 1 <= t && 0 < k.block <= b && c <= BUFFER_SIZE
    requires k.written < |f.data| && Striding(|f.data|, t, b, k) && OnTrack(|f.data|, t, b, k, f.Offsets(), c)
    requires Serviceable(|f.data|, t, b)
    ensures f.Fits(k.block) && Accepts(c, Len(|f.data|, k))
    ensures b > BUFFER_SIZE && !Late(|f.data|, t, b, k) ==> f.FirstChunk() == Min(BUFFER_SIZE, |f.data| - k.pos)
  {
    hide Halfway, Early, Late, BuffersFit, Grid, Straight;
    var n := |f.data|;
    if b <= BUFFER_SIZE {
      EasyServed(f, k, c);
    } else if Late(n, t, b, k) {
      LateFacts(n, t, b, k);
      EasyServed(f, k, c);
    } else {
      EarlyFacts(n, t, b, k);
      StraightServed(f, t, b, k);
    }
  }

  lemma TrackTurn(n: nat, t: nat, b: nat, k: Cursor, before: set<nat>, middle: set<nat>, after: set<nat>, first: nat,
                  c: nat, c2: nat)
    requires 1 <= t && 1 <= b && k.pos < n && OnTrackBehind(n, t, b, k, before, middle, first, c, c2)
    requires Next(n, t, k).written < n && Next(n, t, k).pos + 2 != k.pos + Len(n, k) ==>
      after <= middle + {Next(n, t, k).pos}
    ensures OnTrack(n, t, b, Next(n, t, k), after, c2)
  {
    hide Early, Late, BuffersFit, Grid, Grew, CursorOk, Route, Advance;
    var k2 := Next(n, t, k);
    if k2.written < n && BUFFER_SIZE < b <= t && BuffersFit(n, t, b) {
      if Late(n, t, b, k) {
        LateTurn(n, t, b, k);
      } else {
        EarlyFacts(n, t, b, k);
        EarlyTurn(n, t, b, k);
        if !Late(n, t, b, k2) {
          EarlyFacts(n, t, b, k2);
          ColumnsGrow(n, t, b, k);
          GridTurn(n, t, b, k, before, middle, after);
        }
      }
    }
  }

  lemma TrackStart(n: nat, t: nat, b: nat, os: set<nat>)
    requires 1 <= b && 1 <= t && (n > 0 ==> os <= {0})
    ensures OnTrack(n, t, b, Start(b), os, 0)
  {
    if n > 0 && BUFFER_SIZE < b <= t && BuffersFit(n, t, b) {
      StartsWell(n, t, b);
    }
  }

  /** What a block adds to what is collected. */
  lemma CollectedBehind(s: Cached, block: seq<Byte>)
    requires |s.buf| <= BUFFER_SIZE
    ensures Close(Emptied(PutBytes(s, block))) == Put(Close(s), block)
    ensures s.buf == [] && Full(|block|) ==> Emptied(PutBytes(s, block)).buf == []
  {
    hide PutBytes, Close, Put, Emptied;
    PutCloses(s, block);
    EmptiedCloses(PutBytes(s, block));
    if s.buf == [] {
      LeftOver(s, block);
      WholeIs(|block|);
    }
  }

  /** The facts that a block of stridecat61 needs and leaves: `first` bytes were found in the first slot. */
  ghost predicate OnTrackBehind(n: nat, t: nat, b: nat, k: Cursor, before: set<nat>, middle: set<nat>, first: nat,
                                c: nat, c2: nat)
    requires 1 <= b && 1 <= t && k.pos < n
  {
    && 0 < k.block <= b && k.written < n && Next(n, t, k).written == k.written + Len(n, k)
    && Striding(n, t, b, k) && Striding(n, t, b, Next(n, t, k))
    && OnTrack(n, t, b, k, before, c) && (c == 0 && Full(Len(n, k)) ==> c2 == 0)
    && (BUFFER_SIZE < b <= t && BuffersFit(n, t, b) && !Late(n, t, b, k) ==> first == Min(BUFFER_SIZE, n - k.pos))
    && Grew(middle, before, k.pos, k.pos + first, k.pos + Len(n, k))
  }

  /** A block that stridecat61 copies. */
  method StrideBlock(inf: Reader, outf: Writer, buf: array<Byte>, sz: nat,
                     ghost t: nat, ghost b: nat, ghost k: Cursor, ghost out: seq<Byte>)
    returns (ok: bool, block: seq<Byte>, ghost first: nat)
    requires inf.Valid() && inf.Shape() && outf.Valid() && sz <= buf.Length <= SIZE_MAX && buf != outf.buffers[0]
    requires 1 <= b && 1 <= t && Strides(inf.data, t, b, k, out) && k.written < |inf.data| && 0 < k.block == sz <= b
    requires inf.Ready() && inf.At() == k.pos < |inf.data| && Close(outf.State()) == Put(Plain([], 0), out)
    requires OnTrack(|inf.data|, t, b, k, inf.Offsets(), |outf.State().buf|)
    modifies inf, inf.cache, outf, outf.cache, outf.buffers[0], buf
    ensures inf.Valid() && inf.Shape() && outf.Valid() && (Serviceable(|inf.data|, t, b) ==> ok)
    ensures ok ==> block != [] && |block| == Len(|inf.data|, k) && inf.At() == k.pos + |block|
    ensures ok ==>
      var n, k2 := |inf.data|, Next(|inf.data|, t, k);
      && Strides(inf.data, t, b, k2, out + block) && Close(outf.State()) == Put(Plain([], 0), out + block)
      && k2.written == k.written + |block| && (k2.pos < n || k2.pos < t + b) && (k2.written < n ==> k2.pos < n)
      && var c, c2 := |old(outf.State()).buf|, |outf.State().buf|;
         OnTrackBehind(n, t, b, k, old(inf.Offsets()), inf.Offsets(), first, c, c2)
  {
    hide Slice, Put, Close, Striding, PutBytes, Emptied, Accepts, OnTrack, Serviceable, Late, BuffersFit, Full, Grew;
    hide Reader.Valid, Reader.At, Reader.Ready, Reader.FirstChunk, Reader.Fits, Reader.EndsAt, Reader.Offsets;
    hide Writer.Valid, Writer.State, Strided, Advance;
    ghost var n, s := |inf.data|, outf.State();
    FileOf(outf);
    first := inf.FirstChunk();
    StridingTurn(inf.data, t, b, k);
    if Serviceable(n, t, b) {
      TrackServed(inf, t, b, k, |s.buf|);
    }
    FitsSize(n, t, b);
    ok, block := CopyBlock(inf, outf, buf, sz);
    if ok {
      CollectedBehind(s, block);
      PutPut(Plain([], 0), out, block);
      assert Strided(inf.data, t, Start(b)) == (out + block) + Strided(inf.data, t, Next(n, t, k));
    }
  }

  /** The copy loop of stridecat61, and io61_close: if all is served, the output is as with slow-io61. */
  method CachedStrideCat(data: seq<Byte>, t: nat, b: nat) returns (r: Option<seq<Byte>>)
    requires 1 <= b && 1 <= t && t + b < 0x8000_0000_0000_0000 && |data| <= INT_MAX
    ensures r.Some? ==> r.value == Strided(data, t, Start(b))
    ensures Serviceable(|data|, t, b) ==> r.Some?
  {
    hide Slice, WriteAt, Advance, Strided, Put, Close, Strides, OnTrack, Serviceable, OnTrackBehind;
    hide Reader.Valid, Reader.At, Reader.Ready, Reader.Offsets, Writer.Valid, Writer.State, Flushed;
    var inf := new Reader(data);
    AtStart(inf);
    var outf := new Writer([]);
    var buf := new Byte[b](i => 0);
    var q := inf.Seek(0);
    ghost var n, k, out := |data|, Start(b), [];
    NothingCollected([]);
    PutNothing(Plain([], 0));
    var pos: nat, written: nat, blocksize: nat := 0, 0, b;
    StridesStart(data, t, b);
    TrackStart(n, t, b, inf.Offsets());
    while written < |data|
      invariant inf.Shape() && (written < n ==> inf.Valid() && inf.At() == pos < n && inf.Ready())
      invariant outf.Valid() && Close(outf.State()) == Put(Plain([], 0), out)
      invariant k == Cursor(pos, blocksize, written) && Strides(data, t, b, k, out)
      invariant OnTrack(n, t, b, k, inf.Offsets(), |outf.State().buf|)
    {
      StridesOn(data, t, b, k, out);
      ghost var c, before := |outf.State().buf|, inf.Offsets();
      var ok, block, first := StrideBlock(inf, outf, buf, blocksize, t, b, k, out);
      if !ok {
        return None;
      }
      if |block| <= 0 {
        break;
      }
      ghost var middle, s := inf.Offsets(), outf.State();
      written := written + |block|;
      pos, blocksize := MoveOn(|data|, t, pos, blocksize, k, |block|);
      assert Next(n, t, k) == Cursor(pos, blocksize, written);
      q := inf.Seek(pos);
      assert outf.Valid() && outf.State() == s;
      TrackTurn(n, t, b, k, before, middle, inf.Offsets(), first, c, |s.buf|);
      out, k := out + block, Next(n, t, k);
    }
    StridesEnd(data, t, b, k, out);
    FlushedFile(outf.State());
    q := outf.Flush();
    FileOf(outf);
    WholeFile(out);
    r := Some(outf.file);
  }

  lemma StridesStart(data: seq<Byte>, t: nat, b: nat)
    requires 1 <= b && 1 <= t <= SIZE_MAX
    ensures Strides(data, t, b, Start(b), [])
  {
    StridingStart(|data|, t, b);
  }

  lemma StridesOn(data: seq<Byte>, t: nat, b: nat, k: Cursor, out: seq<Byte>)
    requires 1 <= b && 1 <= t && Strides(data, t, b, k, out) && k.written < |data|
    ensures 0 < k.block <= b && k.pos < |data|
  {
    StridingTurn(data, t, b, k);
  }

  lemma StridesEnd(data: seq<Byte>, t: nat, b: nat, k: Cursor, out: seq<Byte>)
    requires 1 <= t && Strides(data, t, b, k, out) && k.written >= |data|
    ensures out == Strided(data, t, Start(b))
  {
    CopyStops(data, t, k, []);
  }

  lemma FitsSize(n: nat, t: nat, b: nat)
    requires 1 <= b && 1 <= t
    ensures BUFFER_SIZE < b <= t && BuffersFit(n, t, b) ==> Serviceable(n, t, b)
  {}

  lemma WholeFile(bytes: seq<Byte>)
    ensures Put(Plain([], 0), bytes).file == bytes
  {}

  /** The two programs, one after the other. */
  method CachedStrideAndBack(data: seq<Byte>, t: nat, b: nat) returns (r: Option<seq<Byte>>)
    requires 1 <= b && 1 <= t && t + b < 0x8000_0000_0000_0000 && |data| <= INT_MAX
    requires b <= t || 2 * |data| <= INT_MAX
    ensures r.Some? ==> r == CachedBack(data, t, b)
    ensures b <= t && BuffersFit(|data|, t, b) ==> r == Some(data)
    ensures b < BUFFER_SIZE && data != [] && data[0] != 0 ==> r != Some(data)
  {
    hide Strided, CachedUnstrided, BuffersFit;
    if b <= t {
      StrideCatPermutes(data, t, b);
      CachedRoundTrip(|data|, t, b);
    }
    if b < BUFFER_SIZE && data != [] && data[0] != 0 {
      SmallBlocks(data, t, b);
    }
    var strided := CachedStrideCat(data, t, b);
    if strided.None? {
      return None;
    }
    StridedSize(data, t, b, Start(b));
    r := CachedOStrideCat(strided.value, t, b);
  }

  /** With blocks longer than the stride, less than twice the file is written. */
  lemma {:induction false} StridedSize(data: seq<Byte>, t: nat, b: nat, k: Cursor)
    requires 1 <= t
    ensures |Strided(data, t, k)| <= if k.written < |data| then 2 * |data| - k.written else 0
    decreases |data| - k.written
  {
    var block := Slice(data, k.pos, k.block);
    if k.written < |data| && block != [] {
      StridedSize(data, t, b, Advance(|data|, t, k, |block|));
    }
  }
}
