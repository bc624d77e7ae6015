/**
 * When ostridecat61 undoes stridecat61 with the buffered files of pset3/io61.c, for all files of a
 * size: nearly never. Every block but the last must fill whole buffers.
 */
module StrideRestores {
  import opened Common
  import opened CopyLoop
  import opened Io61
  import opened Io61Writer
  import opened Stride
  import opened StrideCached

  /**
   * The sizes whose files all come back. A single block must fill whole buffers. Else full blocks
   * must, and the others too, unless the last one ends up in the right place by chance: in the
   * second of two rows, or where a cut block of one buffer is filled up with the column behind it.
   */
  predicate BuffersFit(n: nat, t: nat, b: nat)
    requires 1 <= b <= t
  {
    if n <= b then n % 4096 == 0
    else
      && b % 4096 == 0
      && if Aligned(n, t, b) then (n % 4096 == 0 && (t % 4096 == 0 || n < t)) || SecondRow(n, t, b)
         else FilledUp(n, t, b)
  }

  predicate SecondRow(n: nat, t: nat, b: nat) { b == t < n < t + 4096 }

  predicate FilledUp(n: nat, t: nat, b: nat)
    requires 1 <= b <= t
  {
    1 <= t % b < 4096 && n == t + (t - t % b - b) + 4096
  }

  // ---------------------------------------------------------------- one turn

  /** stridecat61's block at k, */
  function Len(n: nat, k: Cursor): nat
    requires k.pos < n
  {
    Min(k.block, n - k.pos)
  }

  /** and where the loops go then. */
  function Next(n: nat, t: nat, k: Cursor): Cursor
    requires t >= 1 && k.pos < n
  {
    Advance(n, t, k, Len(n, k))
  }

  /** A block of len bytes lands where it came from. */
  predicate InPlace(n: nat, t: nat, k: Cursor, fd: nat)
    requires t >= 1 && k.pos < n
  {
    var len := Len(n, k);
    (Whole(len) == 0 || fd == k.pos) && (Whole(len) == len || Next(n, t, k).pos == k.pos + Whole(len))
  }

  /** Where the descriptor is after the block. */
  function Behind(n: nat, t: nat, k: Cursor): nat
    requires t >= 1 && k.pos < n
  {
    Next(n, t, k).pos + Len(n, k) - Whole(Len(n, k))
  }

  lemma Concat(a: seq<nat>, x: seq<nat>, b: seq<nat>, y: seq<nat>)
    requires |a| == |b|
    ensures a + x == b + y <==> a == b && x == y
  {
    if a + x == b + y {
      assert (a + x)[..|a|] == a && (b + y)[..|b|] == b;
      assert (a + x)[|a|..] == x && (b + y)[|b|..] == y;
    }
  }

  lemma RangesInPlace(fd: nat, next: nat, pos: nat, w: nat, len: nat)
    requires w <= len
    ensures Range(fd, w) + Range(next, len - w) == Range(pos, len) <==>
      (w == 0 || fd == pos) && (w == len || next == pos + w)
  {
    var r := Range(fd, w) + Range(next, len - w);
    if r == Range(pos, len) {
      if w > 0 {
        assert r[0] == fd;
      }
      if w < len {
        assert r[w] == next;
      }
    }
  }

  lemma LandingTurn(n: nat, t: nat, k: Cursor, fd: nat)
    requires t >= 1 && k.written < n && k.block > 0
    ensures var a := Min(k.block, n - k.written);
            var k2 := Advance(n, t, k, a);
            Landing(n, t, k, fd) ==
              Range(fd, Whole(a)) + Range(k2.pos, a - Whole(a)) + Landing(n, t, k2, k2.pos + a - Whole(a))
  {}

  lemma NothingLands(n: nat, t: nat, k: Cursor, fd: nat)
    requires t >= 1 && k.written >= n
    ensures Landing(n, t, k, fd) == []
  {}

  /** A block that both programs copy alike is at home exactly if it is served and in place and the rest is at home. */
  lemma HomeTurn(n: nat, t: nat, b: nat, k: Cursor, fd: nat)
    requires Halfway(n, t, b, k) && k.written < n && (!Cut(n, k) || Aligned(n, t, b))
    ensures 1 <= b <= t && k.block > 0 && k.pos < n
    ensures Halfway(n, t, b, Next(n, t, k)) && Next(n, t, k).written == k.written + Len(n, k)
    ensures Home(n, t, b, k, fd) <==>
      TurnServed(n, k) && InPlace(n, t, k, fd) && Home(n, t, b, Next(n, t, k), Behind(n, t, k))
  {
    hide CursorOk, Advance, Landing, Whole, Cut, Aligned, Range, TurnServed;
    RouteStep(n, t, b, k);
    SameAmount(n, t, b, k);
    var len := Len(n, k);
    AdvanceOk(n, t, b, k, len);
    var k2 := Next(n, t, k);
    BlockAtMost(n, t, b, k2);
    LandingTurn(n, t, k, fd);
    var w := Whole(len);
    RangesInPlace(fd, k2.pos, k.pos, w, len);
    RangeLengths(fd, k2.pos, k.pos, w, len);
    Concat(Range(fd, w) + Range(k2.pos, len - w), Landing(n, t, k2, Behind(n, t, k)), Range(k.pos, len),
        Route(n, t, b, k2));
  }

  /** A block of whole buffers behind whole buffers is served. */
  lemma WholeServed(n: nat, k: Cursor)
    requires k.written < n && k.written % 4096 == 0 && Min(k.block, n - k.written) % 4096 == 0
    ensures TurnServed(n, k)
  {}

  lemma RangeLengths(fd: nat, next: nat, pos: nat, w: nat, len: nat)
    requires w <= len
    ensures |Range(fd, w) + Range(next, len - w)| == |Range(pos, len)| == len
  {}

  /** At the end everything is at home. */
  lemma HomeEnd(n: nat, t: nat, b: nat, k: Cursor, fd: nat)
    requires Halfway(n, t, b, k) && k.written >= n
    ensures Home(n, t, b, k, fd)
  {
    NothingLands(n, t, k, fd);
  }

  // ---------------------------------------------------------------- multiples of the buffer size

  lemma {:induction false} Multiples(x: nat, b: nat)
    requires b >= 1 && x % b == 0 && b % 4096 == 0
    ensures x % 4096 == 0
  {
    var p, q := x / b, b / 4096;
    assert x == p * b && b == q * 4096;
    assert p * (q * 4096) == (p * q) * 4096;
    DivUnique(x, 4096, p * q, 0);
  }

  lemma Quotient(x: nat, t: nat)
    requires t >= 1
    ensures x == x / t * t + x % t
  {}

  /** With a stride of whole buffers, so are the rows. */
  lemma RowsWhole(q: nat, t: nat, c: nat, x: nat)
    requires t >= 1 && t % 4096 == 0 && x == q * t + c
    ensures x % 4096 == c % 4096
  {
    TimesWhole(q, t);
    SumOf(q * t, c);
  }

  lemma TimesWhole(q: nat, t: nat)
    requires t >= 1 && t % 4096 == 0
    ensures q * t % 4096 == 0
  {
    var m := t / 4096;
    assert q * (m * 4096) == (q * m) * 4096;
    DivUnique(q * t, 4096, q * m, 0);
  }

  lemma SumOf(x: nat, y: nat)
    requires x % 4096 == 0
    ensures (x + y) % 4096 == y % 4096
  {}

  /** A rest that lands at the next block's place by chance. */
  lemma RestInPlace(n: nat, t: nat, b: nat, k: Cursor)
    requires CursorOk(n, t, b, k) && k.block > 0 && k.pos < n && Len(n, k) % 4096 != 0
    ensures Next(n, t, k).pos == k.pos + Whole(Len(n, k)) ==> SecondRow(n, t, b) && k.pos == t
  {
    hide CursorOk, Advance;
    var len := Len(n, k);
    AdvanceOk(n, t, b, k, len);
    BlockFits(n, t, b, k);
    if Next(n, t, k).pos == k.pos + Whole(len) {
      assert Whole(len) < len <= k.block <= t - k.pos % t;
      assert k.pos + t >= n;
      var q := k.pos / t;
      Quotient(k.pos, t);
      assert q * t + Whole(len) == k.block;
      if q >= 2 {
        MulMonotone(2, q, t);
      }
      assert q == 1;
    }
  }

  lemma BlockFits(n: nat, t: nat, b: nat, k: Cursor)
    requires CursorOk(n, t, b, k) && k.block > 0
    ensures k.block == Min(b, t - k.pos % t) && k.pos % t % b == 0
  {}

  // ---------------------------------------------------------------- aligned files

  predicate Full(x: int) { x % 4096 == 0 }

  lemma ColumnFull(x: nat, b: nat)
    requires b >= 1 && x % b == 0 && Full(b)
    ensures Full(x)
  {
    Multiples(x, b);
  }

  /** Blocks that start with a buffer, */
  lemma PosWhole(n: nat, t: nat, b: nat, k: Cursor)
    requires 1 <= b <= t && CursorOk(n, t, b, k) && k.block > 0 && k.pos < n && Full(b) && (Full(t) || n < t)
    ensures Full(k.pos) && Full(k.pos % t) && (n < t ==> k.pos % t == k.pos)
  {
    hide CursorOk, Full;
    BlockFits(n, t, b, k);
    ColumnFull(k.pos % t, b);
    if n < t {
      DivUnique(k.pos, t, 0, k.pos);
    } else {
      RowStart(k.pos, t);
    }
  }

  lemma RowStart(pos: nat, t: nat)
    requires t >= 1 && Full(t) && Full(pos % t)
    ensures Full(pos)
  {
    hide Full;
    Quotient(pos, t);
    RowsFull(pos / t, t, pos % t, pos);
  }

  lemma RowsFull(q: nat, t: nat, c: nat, x: nat)
    requires t >= 1 && Full(t) && Full(c) && x == q * t + c
    ensures Full(x)
  {
    RowsWhole(q, t, c, x);
  }

  /** and fill whole buffers. */
  lemma LenWhole(n: nat, t: nat, b: nat, k: Cursor)
    requires 1 <= b <= t && CursorOk(n, t, b, k) && k.block > 0 && k.pos < n
    requires Full(b) && Full(n) && (Full(t) || n < t)
    ensures Full(Len(n, k))
  {
    hide CursorOk, Full;
    BlockFits(n, t, b, k);
    PosWhole(n, t, b, k);
    MinWhole(b, t, k.pos % t, n, k.pos);
  }

  lemma MinWhole(b: nat, t: nat, c: nat, n: nat, pos: nat)
    requires Full(b) && c <= t && Full(c) && pos <= n && Full(pos) && Full(n)
    requires Full(t) || n - pos <= t - c
    ensures Full(Min(Min(b, t - c), n - pos))
  {
    Difference(n, pos);
    if t % 4096 == 0 {
      Difference(t, c);
    }
  }

  lemma Difference(x: nat, y: nat)
    requires y <= x && x % 4096 == 0 && y % 4096 == 0
    ensures (x - y) % 4096 == 0
  {}

  lemma WholeIs(len: nat)
    ensures len % 4096 == 0 <==> Whole(len) == len
  {}

  lemma {:induction false} AllWhole(n: nat, t: nat, b: nat, k: Cursor)
    requires Halfway(n, t, b, k) && Aligned(n, t, b)
    ensures Full(b) && Full(n) && (Full(t) || n < t) && Full(k.written) ==> Home(n, t, b, k, k.pos)
    decreases n - k.written
  {
    hide CursorOk, Advance, Aligned, Home, Whole, TurnServed;
    if k.written >= n {
      HomeEnd(n, t, b, k, k.pos);
    } else if Full(b) && Full(n) && (Full(t) || n < t) && Full(k.written) {
      HomeTurn(n, t, b, k, k.pos);
      LenWhole(n, t, b, k);
      SameAmount(n, t, b, k);
      WholeServed(n, k);
      SumOf(k.written, Len(n, k));
      WholeIs(Len(n, k));
      AllWhole(n, t, b, Next(n, t, k));
    }
  }

  /** Where all is at home, all blocks fill whole buffers, */
  lemma {:induction false} HomeWhole(n: nat, t: nat, b: nat, k: Cursor, fd: nat)
    requires Halfway(n, t, b, k) && Aligned(n, t, b)
    ensures Home(n, t, b, k, fd) && !SecondRow(n, t, b) ==> Full(n - k.written)
    decreases n - k.written
  {
    hide CursorOk, Advance, Aligned, Home, Whole, SecondRow;
    WrittenUpTo(n, t, b, k);
    if k.written < n && Home(n, t, b, k, fd) && !SecondRow(n, t, b) {
      HomeTurn(n, t, b, k, fd);
      var len := Len(n, k);
      WholeIs(len);
      if len % 4096 != 0 {
        RestInPlace(n, t, b, k);
      }
      HomeWhole(n, t, b, Next(n, t, k), Behind(n, t, k));
      SumOf(len, n - k.written - len);
    }
  }

  lemma WrittenUpTo(n: nat, t: nat, b: nat, k: Cursor)
    requires Halfway(n, t, b, k)
    ensures k.written <= n
  {}

  /** that of the last column too, if the file gets there. */
  lemma {:induction false} HomeColumns(n: nat, t: nat, b: nat, k: Cursor, fd: nat)
    requires Halfway(n, t, b, k) && k.block == b && k.written < n && Aligned(n, t, b)
    ensures Home(n, t, b, k, fd) && !SecondRow(n, t, b) && n >= t && t % b != 0 && Full(b) ==> Full(t)
    decreases n - k.written
  {
    hide Advance, Aligned, Home, Whole, SecondRow, Route;
    HomeTurn(n, t, b, k, fd);
    if Home(n, t, b, k, fd) && !SecondRow(n, t, b) && n >= t && t % b != 0 && Full(b) {
      var k2 := Next(n, t, k);
      AdvanceOk(n, t, b, k, Len(n, k));
      ColumnsEnd(n, t, b, k);
      if k2.block == b {
        HomeColumns(n, t, b, k2, Behind(n, t, k));
      } else {
        var len := Len(n, k2);
        assert len == k2.block == t - k2.pos;
        HomeTurn(n, t, b, k2, Behind(n, t, k));
        WholeIs(len);
        if !Full(len) {
          RestInPlace(n, t, b, k2);
          assert false;
        }
        Multiples(k2.pos, b);
        SumOf(k2.pos, len);
      }
    }
  }

  /** After a full block, with a narrow column at the stride's end, there is another block. */
  lemma ColumnsEnd(n: nat, t: nat, b: nat, k: Cursor)
    requires Halfway(n, t, b, k) && k.block == b && k.written < n && Aligned(n, t, b) && n >= t
    ensures 1 <= b <= t && k.pos < n
    ensures var k2 := Next(n, t, k);
      t % b != 0 ==>
        && k2.written < n && 0 < k2.block <= b && k2.pos < n
        && (k2.block < b ==> k2.pos < t && k2.pos % t == k2.pos && k2.pos % b == 0)
  {
    hide Aligned;
    HomeTurn(n, t, b, k, 0);
    AdvanceOk(n, t, b, k, Len(n, k));
    if t % b != 0 {
      AnotherBlock(n, t, b, k);
    }
  }

  lemma AnotherBlock(n: nat, t: nat, b: nat, k: Cursor)
    requires CursorOk(n, t, b, k) && k.block == b && k.pos < n && n >= t && t % b != 0
    ensures var k2 := Next(n, t, k);
      && 0 < k2.block <= b && k2.pos < n
      && (k2.block < b ==> k2.pos < t && k2.pos % t == k2.pos && k2.pos % b == 0)
  {
    AdvanceOk(n, t, b, k, Len(n, k));
    var c := k.pos % t;
    if c + b == t {
      ModNear(c, b, c + b);
      assert false;
    }
  }

  // ---------------------------------------------------------------- a column cut off by the end of the file

  lemma CutBlock(n: nat, t: nat, b: nat, k: Cursor)
    requires CursorOk(n, t, b, k) && k.block > 0 && Cut(n, k) && !Aligned(n, t, b)
    ensures 1 <= b <= t <= n && k.block == b && k.pos % t + b < t && (k.pos % t + b) % b == 0
    ensures n % t == k.pos % t + (n - k.pos) && k.pos + t >= n && k.pos % t + b < n
  {
    hide CursorOk;
    CutIsLast(n, t, b, k);
    BlockFits(n, t, b, k);
    ColumnAfter(t, b, k.pos % t, k.block);
  }

  /** What is known there: a next column, in which there is something to copy. */
  lemma CutFacts(n: nat, t: nat, b: nat, k: Cursor)
    requires Halfway(n, t, b, k) && k.pos < n && Cut(n, k) && !Aligned(n, t, b) && BeforeCut(n, t, b, k)
    ensures 1 <= b <= t <= n && k.block == b
    ensures var c, len, k2 := k.pos % t, n - k.pos, Next(n, t, k);
      && c % b == 0 && len < b && n % t == c + len && len < Min(b, n - k.written)
      && k2.pos == c + b < t && k2.pos % b == 0 && k2.block == Min(b, t - k2.pos)
      && CursorOk(n, t, b, k) && CursorOk(n, t, b, k2) && Route(n, t, b, k) == Range(k.pos, len) + Route(n, t, b, k2)
      && |Route(n, t, b, k2)| == n - k.written - len
  {
    hide Aligned, CursorOk, Advance, Route;
    CutBlock(n, t, b, k);
    var len, k2 := n - k.pos, Next(n, t, k);
    AdvanceOk(n, t, b, k, len);
    assert k2.pos == k.pos % t + b;
    RouteStep(n, t, b, k);
    SameAmount(n, t, b, k);
    BlockAtMost(n, t, b, k2);
    BlockFits(n, t, b, k);
    BlockFits(n, t, b, k2);
  }

  lemma RouteHead(n: nat, t: nat, b: nat, k: Cursor)
    requires CursorOk(n, t, b, k) && k.block > 0 && k.pos < n
    ensures Route(n, t, b, k) != [] && Route(n, t, b, k)[0] == k.pos
  {
    hide CursorOk, Advance;
    RouteStep(n, t, b, k);
    assert Range(k.pos, Min(k.block, n - k.pos))[0] == k.pos;
  }

  /** Where the bytes of ostridecat61's block land, and that nothing follows if it is the last one. */
  lemma BlockLanding(n: nat, t: nat, k: Cursor) returns (rest: seq<nat>)
    requires t >= 1 && k.pos < n && k.written < n && k.block > 0
    ensures var a, q := Min(k.block, n - k.written), Next(n, t, k).pos;
      && Landing(n, t, k, k.pos) == Range(k.pos, Whole(a)) + Range(q, a - Whole(a)) + rest
      && (a == n - k.written ==> rest == [])
  {
    hide Advance, Landing, Whole;
    var a := Min(k.block, n - k.written);
    LandingTurn(n, t, k, k.pos);
    var k2 := Advance(n, t, k, a);
    SameNext(n, t, k, a);
    AdvanceWritten(n, t, k, a);
    rest := Landing(n, t, k2, k2.pos + a - Whole(a));
    if a == n - k.written {
      NothingLands(n, t, k2, k2.pos + a - Whole(a));
    }
  }

  lemma SameNext(n: nat, t: nat, k: Cursor, a: nat)
    requires t >= 1 && k.pos < n
    ensures Advance(n, t, k, a).pos == Next(n, t, k).pos
  {}

  /** A block of a bytes of which only len are to go to pos: it is at home exactly if these fill whole buffers. */
  lemma SplitHome(n: nat, pos: nat, len: nat, q: nat, a: nat, w: nat, rest: seq<nat>, tail: seq<nat>)
    requires w <= a && len < a && pos + len == n && q < n && tail != [] && tail[0] == q
    ensures Range(pos, w) + Range(q, a - w) + rest == Range(pos, len) + tail <==>
              w == len && tail == Range(q, a - w) + rest
  {
    var land, route := Range(pos, w) + Range(q, a - w) + rest, Range(pos, len) + tail;
    assert route[len] == q;
    assert land[len] == if len < w then n else q + (len - w);
    if w == len {
      assert land == Range(pos, len) + (Range(q, a - w) + rest);
      Concat(Range(pos, len), Range(q, a - w) + rest, Range(pos, len), tail);
    }
  }

  /** The column behind the cut one, when it is the narrow one at the end of the stride and has one row. */
  lemma NarrowColumn(n: nat, t: nat, b: nat, k2: Cursor)
    requires CursorOk(n, t, b, k2) && 1 <= b <= t <= n && k2.block > 0 && k2.block == t - k2.pos && n <= k2.pos + t
    ensures Route(n, t, b, k2) == Range(k2.pos, t - k2.pos)
  {
    hide Advance;
    RouteStep(n, t, b, k2);
    AdvanceOk(n, t, b, k2, k2.block);
    DivUnique(k2.pos, t, 0, k2.pos);
    RouteStep(n, t, b, Advance(n, t, k2, k2.block));
  }

  lemma WholeWithRest(len: nat, rest: nat, b: nat)
    requires len % 4096 == 0 && rest < 4096 && b % 4096 == 0 && len < b
    ensures len + rest < b && Whole(len + rest) == len
  {}

  /** The cut block's next column is the narrow one at the end of the stride. */
  lemma WhichColumn(n: nat, t: nat, b: nat, c: nat, len: nat)
    requires 1 <= b <= t <= n && FilledUp(n, t, b) && c % b == 0 && len < b && n % t == c + len && c + b < t && Full(b)
    ensures c + b == t - t % b && n - t == c + len && len == 4096
  {
    var s := t % b;
    assert b >= 4096;
    DivUnique(n, t, 1, n - t);
    ModNear(c, b, c + b);
    LastMultiple(c + b, t, b);
    Quotient(t, b);
    DivUnique(t - s, b, t / b, 0);
    if c + b < t - s {
      MultipleGap(c + b, t - s, b);
    }
  }

  lemma EmptyEnd(s: seq<nat>)
    ensures s + [] == s
  {}

  lemma RangeTail(from: nat, len: nat, rest: seq<nat>, r: nat)
    requires Range(from, len) + rest == Range(from, r)
    ensures len + |rest| == r && rest == Range(from + len, r - len)
  {
    assert |Range(from, len) + rest| == r;
    assert (Range(from, len) + rest)[len..] == rest;
  }

  /** If all that follows is less than a buffer in a row, it is one row of a narrow column. */
  lemma OneRow(n: nat, t: nat, b: nat, k2: Cursor, r: nat)
    requires CursorOk(n, t, b, k2) && t <= n && 0 < k2.pos < t && k2.block > 0 && r < b
    ensures Route(n, t, b, k2) == Range(k2.pos, r) <==> k2.block == r == t - k2.pos && n <= k2.pos + t
  {
    hide Advance, CursorOk, Route;
    var q, len := k2.pos, k2.block;
    RouteStep(n, t, b, k2);
    AdvanceOk(n, t, b, k2, len);
    BlockFits(n, t, b, k2);
    DivUnique(q, t, 0, q);
    var k3 := Advance(n, t, k2, len);
    RouteStep(n, t, b, k3);
    if Route(n, t, b, k2) == Range(q, r) {
      RangeTail(q, len, Route(n, t, b, k3), r);
      if Route(n, t, b, k3) != [] {
        RouteHead(n, t, b, k3);
      }
    }
    if len == t - q && n <= q + t {
      NarrowColumn(n, t, b, k2);
    }
  }

  /** A file is filled up if the cut block fills one buffer, and one row of a narrow column is left behind it. */
  lemma FilledUpIs(n: nat, t: nat, b: nat, c: nat, len: nat)
    requires 1 <= b <= t <= n && c % b == 0 && 0 < len < b && n % t == c + len && c + b < t && Full(b)
    ensures FilledUp(n, t, b) <==> len == 4096 && t - (c + b) < 4096 && n <= c + b + t
  {
    var r := t - (c + b);
    Multiples(c, b);
    if FilledUp(n, t, b) {
      WhichColumn(n, t, b, c, len);
    }
    if len == 4096 && r < 4096 && n <= c + b + t {
      ModNear(c, b, c + b);
      ModNear(c + b, b, t);
      DivUnique(n, t, 1, n - t);
    }
  }

  /**
   * The bytes that ostridecat61 writes in the turn of a cut block, and all that follow, are at home
   * exactly if the block fills whole buffers, and one row of a narrow column is left.
   */
  lemma CutDecides(n: nat, t: nat, b: nat, pos: nat, k2: Cursor, len: nat, a: nat, rest: seq<nat>)
    requires CursorOk(n, t, b, k2) && 0 < len < a && len < b && t <= n && 0 < k2.pos < t && k2.block > 0 && Full(b)
    requires pos + len == n && k2.block == Min(b, t - k2.pos)
    requires a == Min(b, len + |Route(n, t, b, k2)|) && (a == len + |Route(n, t, b, k2)| ==> rest == [])
    ensures Range(pos, Whole(a)) + Range(k2.pos, a - Whole(a)) + rest == Range(pos, len) + Route(n, t, b, k2) <==>
              Full(len) && t - k2.pos < 4096 && n <= k2.pos + t
  {
    hide CursorOk, Route, Whole, Range;
    var tail, r := Route(n, t, b, k2), t - k2.pos;
    RouteHead(n, t, b, k2);
    SplitHome(n, pos, len, k2.pos, a, Whole(a), rest, tail);
    if Full(len) && r < 4096 && n <= k2.pos + t {
      OneRow(n, t, b, k2, r);
      RangeLength(k2.pos, r);
      WholeWithRest(len, r, b);
      EmptyEnd(Range(k2.pos, r));
    }
    if Whole(a) == len && tail == Range(k2.pos, a - len) + rest {
      LastOne(len, a, b);
      EmptyEnd(Range(k2.pos, a - len));
      OneRow(n, t, b, k2, a - len);
    }
  }

  lemma RangeLength(from: nat, len: nat)
    ensures |Range(from, len)| == len
  {}

  lemma LastOne(len: nat, a: nat, b: nat)
    requires Whole(a) == len < a <= b && Full(b) && len < b
    ensures a < b && a - len < 4096 && Full(len)
  {}

  /** The turn of a block that the end of the file cuts, in a file where that is not the last block. */
  lemma CutTurn(n: nat, t: nat, b: nat, k: Cursor)
    requires Halfway(n, t, b, k) && k.pos < n && Cut(n, k) && !Aligned(n, t, b) && BeforeCut(n, t, b, k)
    ensures 1 <= b <= t
    ensures Full(b) ==> (Home(n, t, b, k, k.pos) <==> FilledUp(n, t, b))
  {
    hide CursorOk, Advance, Route, Aligned, Range, Halfway, Cut, BeforeCut, FilledUp, Full, Home;
    CutFacts(n, t, b, k);
    if Full(b) {
      CutComes(n, t, b, k, n - k.pos, Next(n, t, k));
      FilledUpIs(n, t, b, k.pos % t, n - k.pos);
    }
  }

  /** All is at home from the cut block on exactly if it fills one buffer, and one row of a narrow column is left. */
  lemma CutComes(n: nat, t: nat, b: nat, k: Cursor, len: nat, k2: Cursor)
    requires CursorOk(n, t, b, k) && CursorOk(n, t, b, k2) && t <= n && 0 < k2.pos < t && Full(b) && k.pos + len == n
    requires k2.block == Min(b, t - k2.pos) > 0 && k.written < n && k.block == b && 0 < len < Min(b, n - k.written)
    requires k2 == Next(n, t, k) && |Route(n, t, b, k2)| == n - k.written - len
    requires Route(n, t, b, k) == Range(k.pos, len) + Route(n, t, b, k2)
    ensures Home(n, t, b, k, k.pos) <==> len == 4096 && t - k2.pos < 4096 && n <= k2.pos + t
  {
    hide CursorOk, Advance, Route, Landing, Whole, Range, TurnServed, AllServed;
    var rest := BlockLanding(n, t, k);
    CutDecides(n, t, b, k.pos, k2, len, Min(b, n - k.written), rest);
    CutServed(n, t, b, k, len, k2);
  }

  /** If the rest is one row of a narrow column, all is served from there on only if the cut block fills one buffer. */
  lemma CutServed(n: nat, t: nat, b: nat, k: Cursor, len: nat, k2: Cursor)
    requires CursorOk(n, t, b, k2) && t <= n && 0 < k2.pos < t && k2.block == Min(b, t - k2.pos) > 0 && Full(b)
    requires k.written < n && k.block == b && 0 < len < b && |Route(n, t, b, k2)| == n - k.written - len
    ensures Full(len) && t - k2.pos < 4096 && n <= k2.pos + t ==> (AllServed(n, t, k) <==> len == 4096)
  {
    hide CursorOk, Route;
    var r := t - k2.pos;
    if Full(len) && r < 4096 && n <= k2.pos + t {
      OneRow(n, t, b, k2, r);
      RangeLength(k2.pos, r);
      LastServed(n, t, k, len, r);
    }
  }

  lemma LastServed(n: nat, t: nat, k: Cursor, len: nat, r: nat)
    requires t >= 1 && k.written < n && n - k.written == len + r && 0 < r < 4096 && Full(len) && 0 < len
    requires Full(k.block) && len < k.block
    ensures AllServed(n, t, k) <==> len == 4096
  {
    hide TurnServed, Advance;
    var a := n - k.written;
    AdvanceWritten(n, t, k, a);
    WholeWithRest(len, r, k.block);
    assert Min(k.block, a) == a;
    assert AllServed(n, t, Advance(n, t, k, a));
    OneWrite(n, k, len, r);
  }

  /** A write of whole buffers and some more is served exactly if it is one buffer and some more. */
  lemma OneWrite(n: nat, k: Cursor, len: nat, r: nat)
    requires k.written < n && n - k.written == len + r < k.block && 0 < r < 4096 && Full(len) && 0 < len
    ensures TurnServed(n, k) <==> len == 4096
  {}

  lemma BeforeCutBlock(n: nat, t: nat, b: nat, k: Cursor)
    requires CursorOk(n, t, b, k) && k.block > 0 && 1 <= b <= t && BeforeCut(n, t, b, k)
    ensures k.block == b
  {
    hide CursorOk;
    BlockFits(n, t, b, k);
    var m, l := n % t, (t - 1) - (t - 1) % b;
    Quotient(m, b);
    Quotient(t - 1, b);
    DivUnique(m - m % b, b, m / b, 0);
    DivUnique(l, b, (t - 1) / b, 0);
    MultipleGap(m - m % b, l, b);
  }

  /** All is at home, in a file with a column that its end cuts, if that is so from the cut block on. */
  lemma {:induction false} UpToCut(n: nat, t: nat, b: nat, k: Cursor)
    requires Halfway(n, t, b, k) && k.pos < n && 1 <= b <= t && BeforeCut(n, t, b, k)
    ensures Full(b) && Full(k.written) ==> (Home(n, t, b, k, k.pos) <==> FilledUp(n, t, b))
    decreases n - k.written
  {
    hide CursorOk, Advance, Route, Home, Aligned, FilledUp, Whole, TurnServed;
    if Cut(n, k) {
      CutTurn(n, t, b, k);
    } else if Full(b) && Full(k.written) {
      NotYetDone(n, t, b, k);
      HomeTurn(n, t, b, k, k.pos);
      BeforeCutBlock(n, t, b, k);
      BeforeCutStep(n, t, b, k);
      WholeIs(b);
      SameAmount(n, t, b, k);
      WholeServed(n, k);
      SumOf(k.written, b);
      UpToCut(n, t, b, Next(n, t, k));
    }
  }

  lemma NotYetDone(n: nat, t: nat, b: nat, k: Cursor)
    requires Halfway(n, t, b, k) && k.pos < n && k.block > 0
    ensures k.written < n
  {
    RouteHead(n, t, b, k);
  }

  // ---------------------------------------------------------------- all cases

  lemma SecondRowHome(n: nat, t: nat, b: nat)
    requires 1 <= b <= t <= SIZE_MAX && b % 4096 == 0 && SecondRow(n, t, b)
    ensures CursorOk(n, t, b, Start(b)) && Home(n, t, b, Start(b), 0)
  {
    hide CursorOk, Route, Home, Landing, Range;
    var k := Start(b);
    StartHalfway(n, t, b);
    HomeTurn(n, t, b, k, 0);
    var k2 := Next(n, t, k);
    assert k2 == Cursor(t, b, b) && TurnServed(n, k) && TurnServed(n, k2);
    DivUnique(n, t, 1, n - t);
    DivUnique(t - 1, t, 0, t - 1);
    HomeTurn(n, t, b, k2, t);
    DivUnique(2 * t, t, 2, 0);
    HomeEnd(n, t, b, Next(n, t, k2), Behind(n, t, k2));
  }

  /** The first turn shows whether blocks fill whole buffers. */
  lemma FirstTurn(n: nat, t: nat, b: nat)
    requires 1 <= b <= t <= SIZE_MAX
    ensures CursorOk(n, t, b, Start(b))
    ensures n <= b ==> (Home(n, t, b, Start(b), 0) <==> n % 4096 == 0)
    ensures n > b && Home(n, t, b, Start(b), 0) ==> b % 4096 == 0
  {
    hide CursorOk, Route, Home, Landing, Advance, Whole;
    var k := Start(b);
    StartHalfway(n, t, b);
    if n == 0 {
      HomeEnd(n, t, b, k, 0);
    } else {
      HomeTurn(n, t, b, k, 0);
      var len := Len(n, k);
      WholeIs(len);
      if len % 4096 != 0 && Next(n, t, k).pos == Whole(len) {
        RestInPlace(n, t, b, k);
      }
      if n <= b {
        assert len % 4096 == 0 ==> TurnServed(n, k);
        HomeEnd(n, t, b, Next(n, t, k), Behind(n, t, k));
      }
    }
  }

  /** In an aligned file of several blocks. */
  lemma AlignedExactly(n: nat, t: nat, b: nat)
    requires 1 <= b <= t <= SIZE_MAX && b < n && Aligned(n, t, b)
    ensures CursorOk(n, t, b, Start(b))
    ensures Full(b) ==>
      (Home(n, t, b, Start(b), 0) <==> (Full(n) && (Full(t) || n < t)) || SecondRow(n, t, b))
  {
    hide CursorOk, Route, Home, Landing, Advance, Aligned;
    var k := Start(b);
    StartHalfway(n, t, b);
    if SecondRow(n, t, b) && Full(b) {
      SecondRowHome(n, t, b);
    }
    AllWhole(n, t, b, k);
    HomeWhole(n, t, b, k, 0);
    HomeColumns(n, t, b, k, 0);
    if Full(b) && t % b == 0 {
      Multiples(t, b);
    }
  }

  /** Every byte lands at home exactly for the sizes that fit the buffers. */
  lemma HomeExactly(n: nat, t: nat, b: nat)
    requires 1 <= b <= t < 0x8000_0000_0000_0000 && n <= INT_MAX
    ensures CursorOk(n, t, b, Start(b))
    ensures Home(n, t, b, Start(b), 0) <==> BuffersFit(n, t, b)
  {
    hide CursorOk, Route, Home, Landing, Advance, Aligned, SecondRow, FilledUp;
    StartHalfway(n, t, b);
    FirstTurn(n, t, b);
    if n > b && b % 4096 == 0 {
      if Aligned(n, t, b) {
        AlignedExactly(n, t, b);
      } else {
        StartBeforeCut(n, t, b);
        UpToCut(n, t, b, Start(b));
      }
    }
  }

  /**
   * Running ostridecat61 on stridecat61's output with buffered files restores every file of n bytes
   * exactly if n, the stride and the block size fit the buffers.
   */
  lemma CachedRoundTrip(n: nat, t: nat, b: nat)
    requires 1 <= b <= t < 0x8000_0000_0000_0000 && n <= INT_MAX
    ensures (forall data :: |data| == n ==> CachedBack(data, t, b) == Some(data)) <==> BuffersFit(n, t, b)
  {
    hide CursorOk, Home, BuffersFit, CachedBack;
    HomeExactly(n, t, b);
    if Home(n, t, b, Start(b), 0) {
      forall data | |data| == n ensures CachedBack(data, t, b) == Some(data) {
        HomeRestores(data, t, b);
      }
    } else {
      var data := AwayLoses(n, t, b);
    }
  }

  /** A file whose bytes would all land at home, were the second block's write of 8292 bytes served. */
  lemma SecondBlockOverruns(data: seq<Byte>)
    requires |data| == 20580
    ensures CachedBack(data, 12388, 12288) == None
  {
    hide CachedBack, Landing, Route, CursorOk, AllServed, PutAll;
    BackIs(data, 12388, 12288);
    SecondNotServed();
  }

  lemma SecondNotServed()
    ensures !AllServed(20580, 12388, Start(12288)) && !TurnServed(20580, Cursor(12388, 12288, 12288))
  {
    assert Advance(20580, 12388, Start(12288), 12288) == Cursor(12388, 12288, 12288);
  }

  // ---------------------------------------------------------------- blocks smaller than a buffer

  /** Once the descriptor has left the start of the file, or without whole buffers, nothing goes there. */
  lemma {:induction false} NothingAtStart(n: nat, t: nat, k: Cursor, fd: nat, i: nat)
    requires t >= 1 && k.written <= n && i < |Landing(n, t, k, fd)|
    requires fd > 0 || Whole(Min(k.block, n - k.written)) == 0
    ensures Landing(n, t, k, fd)[i] > 0
    decreases n - k.written
  {
    hide Landing;
    if k.written < n && k.block > 0 {
      LandingTurn(n, t, k, fd);
      var a := Min(k.block, n - k.written);
      var k2 := Advance(n, t, k, a);
      if i >= a {
        NothingAtStart(n, t, k2, k2.pos + a - Whole(a), i - a);
      }
    } else {
      NoLanding(n, t, k, fd);
    }
  }

  lemma NoLanding(n: nat, t: nat, k: Cursor, fd: nat)
    requires t >= 1 && (k.written >= n || k.block == 0)
    ensures Landing(n, t, k, fd) == []
  {}

  /** With blocks smaller than a buffer and any stride, no file comes back whose first byte is not zero. */
  lemma SmallBlocks(data: seq<Byte>, t: nat, b: nat)
    requires t >= 1 && 1 <= b < 4096 && data != [] && data[0] != 0
    ensures CachedBack(data, t, b) != Some(data)
  {
    hide Landing, CachedUnstrided, Strided, PutAll;
    var input := Strided(data, t, Start(b));
    CachedLands(input, t, Start(b), Plain([], 0));
    var land := Landing(|input|, t, Start(b), 0);
    forall i | 0 <= i < |land| ensures land[i] != 0 {
      NothingAtStart(|input|, t, Start(b), 0, i);
    }
    PutAllZero([], land, input[0..], 0);
  }
}
