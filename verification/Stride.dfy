/**
 * Strided copies (pset3/stridecat61.c, pset3/ostridecat61.c): the first reads a file column by
 * column of a stride and writes sequentially, the second reads sequentially and writes column
 * by column. When does the second undo the first? Here both programs use the unbuffered files of
 * pset3/slow-io61.c; StrideCached has those of pset3/io61.c.
 */
module Stride {
  import opened Common
  import opened CopyLoop
  import opened Io61
  import opened Io61Writer

  // ---------------------------------------------------------------- the two programs

  /** Position of the strided file, current block size, and bytes copied so far. */
  datatype Cursor = Cursor(pos: nat, block: nat, written: nat)

  /** On to the next stride, or to the next column once the file's end is passed. */
  function Advance(n: nat, t: nat, k: Cursor, amount: nat): Cursor
    requires t >= 1
  {
    if k.pos + t < n then Cursor(k.pos + t, k.block, k.written + amount)
    else
      var pos := (k.pos + t) % t + k.block;
      Cursor(pos, if pos + k.block > t then ToSize(t - pos) else k.block, k.written + amount)
  }

  /** What stridecat61 writes from k on. */
  function Strided(data: seq<Byte>, t: nat, k: Cursor): seq<Byte>
    requires t >= 1
    decreases |data| - k.written
  {
    var block := Slice(data, k.pos, k.block);
    if k.written >= |data| || block == [] then []
    else block + Strided(data, t, Advance(|data|, t, k, |block|))
  }

  /** What ostridecat61 makes of its output file from k on. */
  function Unstrided(input: seq<Byte>, t: nat, k: Cursor, file: seq<Byte>): seq<Byte>
    requires t >= 1
    decreases |input| - k.written
  {
    var block := Slice(input, k.written, k.block);
    if k.written >= |input| || block == [] then file
    else Unstrided(input, t, Advance(|input|, t, k, |block|), WriteAt(file, k.pos, block))
  }

  /** Where both loops start: block size b. */
  function Start(b: nat): Cursor { Cursor(0, b, 0) }

  lemma StridedStep(data: seq<Byte>, t: nat, k: Cursor)
    requires t >= 1 && k.written < |data| && Slice(data, k.pos, k.block) != []
    ensures var block := Slice(data, k.pos, k.block);
            Strided(data, t, k) == block + Strided(data, t, Advance(|data|, t, k, |block|))
  {}

  lemma UnstridedStep(input: seq<Byte>, t: nat, k: Cursor, file: seq<Byte>)
    requires t >= 1 && k.written < |input| && Slice(input, k.written, k.block) != []
    ensures var block := Slice(input, k.written, k.block);
            Unstrided(input, t, k, file) == Unstrided(input, t, Advance(|input|, t, k, |block|),
                WriteAt(file, k.pos, block))
  {}

  /** Both loops stop with everything copied, or when a read returns nothing. */
  lemma CopyStops(data: seq<Byte>, t: nat, k: Cursor, file: seq<Byte>)
    requires t >= 1
    ensures k.written >= |data| || Slice(data, k.pos, k.block) == [] ==> Strided(data, t, k) == []
    ensures k.written >= |data| || Slice(data, k.written, k.block) == [] ==> Unstrided(data, t, k, file) == file
  {}

  /** "Move file position to next stride", as both programs do it. */
  method NextBlock(n: nat, t: nat, pos0: nat, block0: nat) returns (pos: nat, blocksize: nat)
    requires t >= 1
    ensures forall written: nat, amount: nat ::
      Advance(n, t, Cursor(pos0, block0, written), amount) == Cursor(pos, blocksize, written + amount)
  {
    pos, blocksize := pos0 + t, block0;
    if pos >= n {
      pos := pos % t + blocksize;
      if pos + blocksize > t {
        blocksize := ToSize(t - pos);
      }
    }
  }

  /** The copy loop of stridecat61. */
  method StrideCat(data: seq<Byte>, t: nat, b: nat) returns (out: seq<Byte>)
    requires t >= 1
    ensures out == Strided(data, t, Start(b))
  {
    hide Slice, Strided, Unstrided, Advance;
    var inf := new SlowReader(data);
    var pos: nat, written: nat, blocksize: nat := 0, 0, b;
    out := [];
    while written < |data|
      invariant inf.data == data && inf.fd == pos && fresh(inf)
      invariant Strided(data, t, Start(b)) == out + Strided(data, t, Cursor(pos, blocksize, written))
    {
      var buf := new Byte[blocksize](i => 0);
      var amount := inf.Read(buf, blocksize);
      ghost var k := Cursor(pos, blocksize, written);
      CopyStops(data, t, k, []);
      if amount <= 0 {
        break;
      }
      StridedStep(data, t, k);
      out := out + buf[..amount];
      written := written + amount;
      pos, blocksize := NextBlock(|data|, t, pos, blocksize);
      var r := inf.Seek(pos);
    }
    CopyStops(data, t, Cursor(pos, blocksize, written), []);
  }

  /** The copy loop of ostridecat61, to an empty file. */
  method OStrideCat(input: seq<Byte>, t: nat, b: nat) returns (file: seq<Byte>)
    requires t >= 1
    ensures file == Unstrided(input, t, Start(b), [])
  {
    hide Slice, WriteAt, Strided, Unstrided, Advance;
    var inf := new SlowReader(input);
    var outf := new SlowWriter([]);
    var r := outf.Seek(0);
    var pos: nat, written: nat, blocksize: nat := 0, 0, b;
    while written < |input|
      invariant inf.data == input && inf.fd == written && fresh(inf) && fresh(outf) && outf.fd == pos
      invariant Unstrided(input, t, Start(b), []) == Unstrided(input, t, Cursor(pos, blocksize, written), outf.file)
    {
      var buf := new Byte[blocksize](i => 0);
      var amount := inf.Read(buf, blocksize);
      ghost var k := Cursor(pos, blocksize, written);
      CopyStops(input, t, k, outf.file);
      if amount <= 0 {
        break;
      }
      UnstridedStep(input, t, k, outf.file);
      var n := outf.Write(buf[..amount]);
      written := written + amount;
      pos, blocksize := NextBlock(|input|, t, pos, blocksize);
      r := outf.Seek(pos);
    }
    CopyStops(input, t, Cursor(pos, blocksize, written), outf.file);
    file := outf.file;
  }

  // ---------------------------------------------------------------- remainders

  lemma Multiple(d: int, t: nat)
    ensures d >= 1 ==> d * t >= t
    ensures d <= -1 ==> -(d * t) >= t
  {
    if d >= 1 {
      assert d * t == t + (d - 1) * t;
    } else if d <= -1 {
      assert -(d * t) == t + (-d - 1) * t;
    }
  }

  lemma DivUnique(a: nat, t: nat, q: int, r: nat)
    requires r < t && a == q * t + r
    ensures a % t == r
  {
    var d := a / t - q;
    assert d * t == r - a % t;
    Multiple(d, t);
  }

  /** The remainder of a number at most t behind pos. */
  lemma ModNear(pos: nat, t: nat, x: nat)
    requires t >= 1 && pos <= x <= pos + t
    ensures var c := pos % t + (x - pos); x % t == if c < t then c else c - t
  {
    var q, c := pos / t, pos % t + (x - pos);
    assert pos == q * t + pos % t;
    if c < t {
      DivUnique(x, t, q, c);
    } else {
      assert (q + 1) * t == q * t + t;
      DivUnique(x, t, q + 1, c - t);
    }
  }

  /** No multiple of b lies between the last one up to y and y. */
  lemma LastMultiple(x: nat, y: nat, b: nat)
    requires b >= 1 && x % b == 0 && x <= y
    ensures x <= y - y % b
  {
    var p, q := x / b, y / b;
    assert x == p * b && y == q * b + y % b;
    assert (p - q) * b == p * b - q * b;
    Multiple(p - q, b);
  }

  // ---------------------------------------------------------------- every offset once

  /** k is where the loops can be: in a column that starts at a multiple of b, b wide or up to the stride's end. */
  ghost predicate CursorOk(n: nat, t: nat, b: nat, k: Cursor) {
    && 1 <= b <= t <= SIZE_MAX
    && if k.block == 0 then k.pos == t && n > 0
       else
         && k.pos % t % b == 0 && k.block == Min(b, t - k.pos % t)
         && (k.pos < n || k.pos < t)
  }

  /** The column after k's. */
  function NextColumn(t: nat, k: Cursor): nat
    requires t >= 1
  {
    k.pos % t + k.block
  }

  function Turn(n: nat, t: nat, k: Cursor): Cursor
    requires t >= 1
  {
    Advance(n, t, k, Min(k.block, if k.pos < n then n - k.pos else 0))
  }

  lemma AdvanceWritten(n: nat, t: nat, k: Cursor, amount: nat)
    requires t >= 1
    ensures Advance(n, t, k, amount).written == k.written + amount
  {}

  /** The column after one that starts at c. */
  lemma ColumnAfter(t: nat, b: nat, c: nat, width: nat)
    requires 1 <= b <= t && c < t && c % b == 0 && width == Min(b, t - c)
    ensures c < c + width <= t
    ensures c + width < t ==> width == b && (c + width) % b == 0 && (c + width) % t == c + width
  {
    if c + width < t {
      ModNear(c, b, c + b);
      DivUnique(c + width, t, 0, c + width);
    }
  }

  lemma AdvanceOk(n: nat, t: nat, b: nat, k: Cursor, amount: nat)
    requires CursorOk(n, t, b, k) && k.pos < n && k.block > 0
    ensures var k2 := Advance(n, t, k, amount);
      && CursorOk(n, t, b, k2) && k2.written == k.written + amount
      && (if k.pos + t < n then k2.pos == k.pos + t && k2.pos % t == k.pos % t && k2.block == k.block
          else k2.pos == NextColumn(t, k) <= t && (k2.block > 0 ==> k2.pos % t == k2.pos > k.pos % t)
               && (k2.block == 0 <==> k2.pos == t))
  {
    ModNear(k.pos, t, k.pos + t);
    var c := k.pos % t;
    ColumnAfter(t, b, c, k.block);
  }

  /** The offsets copied from k on, in order. */
  function Route(n: nat, t: nat, b: nat, k: Cursor): seq<nat>
    requires CursorOk(n, t, b, k)
    decreases if k.block == 0 then 0 else t - k.pos % t, n - k.pos
  {
    if k.block == 0 || k.pos >= n then []
    else
      AdvanceOk(n, t, b, k, Min(k.block, n - k.pos));
      Range(k.pos, Min(k.block, n - k.pos)) + Route(n, t, b, Advance(n, t, k, Min(k.block, n - k.pos)))
  }

  function Range(from: nat, len: nat): (r: seq<nat>)
    ensures |r| == len && forall i :: 0 <= i < len ==> r[i] == from + i
  {
    seq(len, i requires 0 <= i < len => from + i)
  }

  /** Copied before the loops get to k. */
  ghost predicate Visited(t: nat, k: Cursor, x: nat)
    requires t >= 1
  {
    if k.block == 0 then true
    else x % t < k.pos % t || (x % t < NextColumn(t, k) && x < k.pos)
  }

  lemma {:induction false} RangeCount(from: nat, len: nat, x: nat)
    ensures multiset(Range(from, len))[x] == if from <= x < from + len then 1 else 0
    decreases len
  {
    if len == 0 {
      assert Range(from, 0) == [];
    } else {
      RangeCount(from, len - 1, x);
      assert Range(from, len) == Range(from, len - 1) + [from + len - 1];
    }
  }

  /** A turn visits exactly the block at k. */
  lemma VisitedStep(n: nat, t: nat, b: nat, k: Cursor, amount: nat, x: nat)
    requires CursorOk(n, t, b, k) && k.block > 0 && k.pos < n && x < n
    ensures CursorOk(n, t, b, Advance(n, t, k, amount))
    ensures Visited(t, Advance(n, t, k, amount), x) <==>
      Visited(t, k, x) || k.pos <= x < k.pos + Min(k.block, n - k.pos)
    ensures k.pos <= x < k.pos + Min(k.block, n - k.pos) ==> !Visited(t, k, x)
  {
    AdvanceOk(n, t, b, k, amount);
    if k.pos <= x <= k.pos + t {
      ModNear(k.pos, t, x);
    }
    if x < t {
      DivUnique(x, t, 0, x);
    }
  }

  /** Past the end, or with no column left, everything was visited. */
  lemma AllVisited(n: nat, t: nat, b: nat, k: Cursor, x: nat)
    requires CursorOk(n, t, b, k) && (k.block == 0 || k.pos >= n) && x < n
    ensures Visited(t, k, x)
  {
    if k.block > 0 {
      DivUnique(k.pos, t, 0, k.pos);
      DivUnique(x, t, 0, x);
    }
  }

  lemma RouteStep(n: nat, t: nat, b: nat, k: Cursor)
    requires CursorOk(n, t, b, k)
    ensures k.block == 0 || k.pos >= n ==> Route(n, t, b, k) == []
    ensures k.block > 0 && k.pos < n ==>
      var len := Min(k.block, n - k.pos);
      && CursorOk(n, t, b, Advance(n, t, k, len))
      && Route(n, t, b, k) == Range(k.pos, len) + Route(n, t, b, Advance(n, t, k, len))
  {
    hide Advance, CursorOk;
    if k.block > 0 && k.pos < n {
      AdvanceOk(n, t, b, k, Min(k.block, n - k.pos));
    }
  }

  lemma {:induction false} RouteCount(n: nat, t: nat, b: nat, k: Cursor, x: nat)
    requires CursorOk(n, t, b, k)
    ensures multiset(Route(n, t, b, k))[x] == if x < n && !Visited(t, k, x) then 1 else 0
    decreases if k.block == 0 then 0 else t - k.pos % t, n - k.pos
  {
    hide Advance, CursorOk, Visited, Route, Range;
    RouteStep(n, t, b, k);
    if k.block == 0 || k.pos >= n {
      if x < n {
        AllVisited(n, t, b, k, x);
      }
    } else {
      var len := Min(k.block, n - k.pos);
      AdvanceOk(n, t, b, k, len);
      var k2 := Advance(n, t, k, len);
      RouteCount(n, t, b, k2, x);
      RangeCount(k.pos, len, x);
      assert multiset(Route(n, t, b, k)) == multiset(Range(k.pos, len)) + multiset(Route(n, t, b, k2));
      if x < n {
        VisitedStep(n, t, b, k, len, x);
      }
    }
  }

  lemma StartOk(n: nat, t: nat, b: nat)
    requires 1 <= b <= t <= SIZE_MAX
    ensures CursorOk(n, t, b, Start(b)) && forall x: nat :: !Visited(t, Start(b), x)
  {}

  /** The copy order visits every byte offset of the file exactly once, and nothing else. */
  lemma EachOffsetOnce(n: nat, t: nat, b: nat)
    requires 1 <= b <= t <= SIZE_MAX
    ensures CursorOk(n, t, b, Start(b))
    ensures |Route(n, t, b, Start(b))| == n
    ensures multiset(Route(n, t, b, Start(b))) == multiset(Range(0, n))
  {
    StartOk(n, t, b);
    var route := Route(n, t, b, Start(b));
    forall x ensures multiset(route)[x] == multiset(Range(0, n))[x] {
      RouteCount(n, t, b, Start(b), x);
      RangeCount(0, n, x);
    }
    assert multiset(route) == multiset(Range(0, n));
    assert |multiset(route)| == |Range(0, n)|;
  }

  function Pick(data: seq<Byte>, offsets: seq<nat>): (r: seq<Byte>)
    requires forall i :: 0 <= i < |offsets| ==> offsets[i] < |data|
    ensures |r| == |offsets|
  {
    seq(|offsets|, i requires 0 <= i < |offsets| => data[offsets[i]])
  }

  lemma PickRange(data: seq<Byte>, pos: nat, block: nat)
    requires pos < |data|
    ensures Pick(data, Range(pos, Min(block, |data| - pos))) == Slice(data, pos, block)
  {}

  lemma PickAppend(data: seq<Byte>, a: seq<nat>, b: seq<nat>)
    requires (forall i :: 0 <= i < |a| ==> a[i] < |data|) && forall i :: 0 <= i < |b| ==> b[i] < |data|
    ensures forall i :: 0 <= i < |a + b| ==> (a + b)[i] < |data|
    ensures Pick(data, a + b) == Pick(data, a) + Pick(data, b)
  {}

  lemma {:induction false} RouteInside(n: nat, t: nat, b: nat, k: Cursor)
    requires CursorOk(n, t, b, k)
    ensures forall i :: 0 <= i < |Route(n, t, b, k)| ==> Route(n, t, b, k)[i] < n
    decreases if k.block == 0 then 0 else t - k.pos % t, n - k.pos
  {
    hide CursorOk, Advance;
    if k.block > 0 && k.pos < n {
      var len := Min(k.block, n - k.pos);
      AdvanceOk(n, t, b, k, len);
      RouteInside(n, t, b, Advance(n, t, k, len));
    }
  }

  /** stridecat61's output is the file picked along the route, as long as the bytes written match the route done. */
  lemma {:induction false} StridedIsRoute(data: seq<Byte>, t: nat, b: nat, k: Cursor)
    requires CursorOk(|data|, t, b, k) && k.written + |Route(|data|, t, b, k)| == |data|
    ensures forall i :: 0 <= i < |Route(|data|, t, b, k)| ==> Route(|data|, t, b, k)[i] < |data|
    ensures Strided(data, t, k) == Pick(data, Route(|data|, t, b, k))
    decreases if k.block == 0 then 0 else t - k.pos % t, |data| - k.pos
  {
    hide CursorOk, Advance, Slice, Range, Pick;
    var n := |data|;
    RouteInside(n, t, b, k);
    if k.block > 0 && k.pos < n {
      var len := Min(k.block, n - k.pos);
      AdvanceOk(n, t, b, k, len);
      var k2 := Advance(n, t, k, len);
      StridedIsRoute(data, t, b, k2);
      PickRange(data, k.pos, k.block);
      PickAppend(data, Range(k.pos, len), Route(n, t, b, k2));
    }
  }

  /** stridecat61 writes a permutation of its file: the bytes along a route that visits each offset once. */
  lemma StrideCatPermutes(data: seq<Byte>, t: nat, b: nat)
    requires 1 <= b <= t <= SIZE_MAX
    ensures CursorOk(|data|, t, b, Start(b))
    ensures var route := Route(|data|, t, b, Start(b));
      && multiset(route) == multiset(Range(0, |data|)) && (forall i :: 0 <= i < |route| ==> route[i] < |data|)
      && Strided(data, t, Start(b)) == Pick(data, route) && |Strided(data, t, Start(b))| == |data|
  {
    EachOffsetOnce(|data|, t, b);
    StridedIsRoute(data, t, b, Start(b));
  }

  // ---------------------------------------------------------------- the round trip

  /**
   * No column but the last is cut off by the end of the file, unless there is only one row. In
   * particular it holds for blocks of one byte, and when the stride divides the file size.
   */
  predicate Aligned(n: nat, t: nat, b: nat)
    requires 1 <= b <= t
  {
    n < t || n % t % b == 0 || n % t > (t - 1) - (t - 1) % b
  }

  /** The block at k is cut off by the end of the file. */
  ghost predicate Cut(n: nat, k: Cursor) { k.pos < n < k.pos + k.block }

  /** In a cut column, the remainder m of the file size tells whether the column is the last one. */
  lemma CutColumn(t: nat, b: nat, c: nat, width: nat, m: nat)
    requires 1 <= b <= t && c < t && c % b == 0 && width == Min(b, t - c) && c < m < c + width
    ensures m % b != 0 && (m > (t - 1) - (t - 1) % b <==> c + width == t)
  {
    ModNear(c, b, m);
    LastMultiple(c, t - 1, b);
    if c + width == t {
      ModNear(c, b, t - 1);
    } else {
      ModNear(c, b, c + b);
      LastMultiple(c + b, t - 1, b);
    }
  }

  /** In an aligned file, only the very last block can be cut off. */
  lemma CutIsLast(n: nat, t: nat, b: nat, k: Cursor)
    requires CursorOk(n, t, b, k) && k.block > 0 && Cut(n, k)
    ensures n % t == k.pos % t + (n - k.pos)
    ensures Aligned(n, t, b) <==> NextColumn(t, k) == t || NextColumn(t, k) >= n
  {
    ModNear(k.pos, t, n);
    CutColumn(t, b, k.pos % t, k.block, n % t);
    if n < t {
      DivUnique(k.pos, t, 0, k.pos);
    }
  }

  /** stridecat61's turn at k, and what is left to do after it. */
  lemma StridedTurn(data: seq<Byte>, t: nat, b: nat, k: Cursor)
    requires CursorOk(|data|, t, b, k) && k.written + |Route(|data|, t, b, k)| == |data|
    requires k.block > 0 && k.pos < |data|
    ensures var len := Min(k.block, |data| - k.pos);
            var k2 := Advance(|data|, t, k, len);
            && CursorOk(|data|, t, b, k2) && k2.written == k.written + len
                 && |Route(|data|, t, b, k2)| == |data| - k2.written
            && Strided(data, t, k) == data[k.pos..k.pos + len] + Strided(data, t, k2)
  {
    hide CursorOk, Advance, Strided, Slice;
    var len := Min(k.block, |data| - k.pos);
    AdvanceOk(|data|, t, b, k, len);
    BlockAt(data, k.pos, k.block);
    StridedStep(data, t, k);
  }

  lemma BlockAt(data: seq<Byte>, pos: nat, block: nat)
    requires pos < |data| && block > 0
    ensures Slice(data, pos, block) == data[pos..pos + Min(block, |data| - pos)] != []
  {}

  /** The programs agree on k's block unless it is cut off before the last one. */
  lemma SameAmount(n: nat, t: nat, b: nat, k: Cursor)
    requires CursorOk(n, t, b, k) && k.written + |Route(n, t, b, k)| == n && k.block > 0 && k.pos < n
    ensures k.written < n
    ensures !Cut(n, k) || Aligned(n, t, b) ==> Min(k.block, n - k.written) == Min(k.block, n - k.pos)
    ensures Cut(n, k) && !Aligned(n, t, b) ==> Min(k.block, n - k.written) > n - k.pos
  {
    hide CursorOk, Aligned;
    var len := Min(k.block, n - k.pos);
    AdvanceOk(n, t, b, k, len);
    if Cut(n, k) {
      CutIsLast(n, t, b, k);
    }
  }

  /** In an aligned file ostridecat61 puts every block back where stridecat61 took it from. */
  lemma {:induction false} PutBack(data: seq<Byte>, t: nat, b: nat, k: Cursor, input: seq<Byte>, file: seq<Byte>)
    requires CursorOk(|data|, t, b, k) && k.written + |Route(|data|, t, b, k)| == |data| && Aligned(|data|, t, b)
    requires |input| == |data| && input[k.written..] == Strided(data, t, k)
    requires |file| <= |data| && forall x :: 0 <= x < |data| && Visited(t, k, x) ==> x < |file| && file[x] == data[x]
    ensures Unstrided(input, t, k, file) == data
    decreases if k.block == 0 then 0 else t - k.pos % t, |data| - k.pos
  {
    hide CursorOk, Advance, Visited, Aligned, Slice, WriteAt;
    var n := |data|;
    if k.block == 0 || k.pos >= n {
      forall x: nat | x < n ensures x < |file| && file[x] == data[x] {
        AllVisited(n, t, b, k, x);
      }
      if n > 0 {
        AllVisited(n, t, b, k, n - 1);
      }
      assert file == data;
    } else {
      var len := Min(k.block, n - k.pos);
      StridedTurn(data, t, b, k);
      SameAmount(n, t, b, k);
      AdvanceOk(n, t, b, k, len);
      var k2 := Advance(n, t, k, len);
      BlockIs(input, k.written, k.block, data[k.pos..k.pos + len], Strided(data, t, k2));
      var next := WriteAt(file, k.pos, data[k.pos..k.pos + len]);
      forall x: nat | x < n && Visited(t, k2, x) ensures x < |next| && next[x] == data[x] {
        VisitedStep(n, t, b, k, len, x);
        WroteAt(file, data, k.pos, len, x);
      }
      WroteAt(file, data, k.pos, len, k.pos);
      PutBack(data, t, b, k2, input, next);
    }
  }

  lemma BlockIs(input: seq<Byte>, w: nat, block: nat, first: seq<Byte>, rest: seq<Byte>)
    requires w < |input| && input[w..] == first + rest && |first| == Min(block, |input| - w)
    ensures Slice(input, w, block) == first && input[w + |first|..] == rest
  {
    assert input[w..][..|first|] == first;
    assert input[w + |first|..] == input[w..][|first|..];
  }

  lemma WroteAt(file: seq<Byte>, data: seq<Byte>, pos: nat, len: nat, x: nat)
    requires 0 < len && pos + len <= |data| && |file| <= |data|
    ensures var next := WriteAt(file, pos, data[pos..pos + len]);
      && |file| <= |next| <= |data|
      && (pos <= x < pos + len ==> x < |next| && next[x] == data[x])
      && (!(pos <= x < pos + len) && x < |file| ==> x < |next| && next[x] == file[x])
  {
    var next := WriteAt(file, pos, data[pos..pos + len]);
    if pos <= x < pos + len {
      assert next[pos + (x - pos)] == data[pos..pos + len][x - pos];
    }
  }

  lemma {:induction false} NeverShrinks(input: seq<Byte>, t: nat, k: Cursor, file: seq<Byte>)
    requires t >= 1
    ensures |Unstrided(input, t, k, file)| >= |file|
    decreases |input| - k.written
  {
    hide Slice, Advance, WriteAt;
    var block := Slice(input, k.written, k.block);
    AdvanceWritten(|input|, t, k, |block|);
    if k.written < |input| && block != [] {
      NeverShrinks(input, t, Advance(|input|, t, k, |block|), WriteAt(file, k.pos, block));
    }
  }

  /** In an unaligned file the column that the end of the file cuts is still to come, or is being copied. */
  ghost predicate BeforeCut(n: nat, t: nat, b: nat, k: Cursor)
    requires 1 <= b <= t
  {
    !Aligned(n, t, b) && k.block > 0 && k.pos % t <= n % t - n % t % b
  }

  lemma BeforeCutStep(n: nat, t: nat, b: nat, k: Cursor)
    requires CursorOk(n, t, b, k) && k.pos < n && BeforeCut(n, t, b, k) && !Cut(n, k)
    ensures BeforeCut(n, t, b, Advance(n, t, k, k.block)) && Advance(n, t, k, k.block).pos < n
  {
    var c, m := k.pos % t, n % t;
    AdvanceOk(n, t, b, k, k.block);
    if k.pos + t >= n {
      ModNear(k.pos, t, n);
      ModNear(c, b, c + b);
      ModNear(m - m % b, b, m);
      LastMultiple(c, m, b);
      MultipleGap(c, m - m % b, b);
      assert c + k.block <= m;
    }
  }

  lemma MultipleGap(x: nat, y: nat, b: nat)
    requires b >= 1 && x % b == 0 && y % b == 0 && x < y
    ensures x + b <= y
  {
    ModNear(x, b, x + b);
    if y < x + b {
      ModNear(x, b, y);
      assert false;
    }
  }

  /** In an unaligned file ostridecat61 writes a whole block where stridecat61 read a short one, past the file's end. */
  lemma {:induction false} Overshoots(data: seq<Byte>, t: nat, b: nat, k: Cursor, input: seq<Byte>, file: seq<Byte>)
    requires CursorOk(|data|, t, b, k) && k.written + |Route(|data|, t, b, k)| == |data| && k.pos < |data|
    requires BeforeCut(|data|, t, b, k) && |input| == |data|
    ensures |Unstrided(input, t, k, file)| > |data|
    decreases if k.block == 0 then 0 else t - k.pos % t, |data| - k.pos
  {
    hide CursorOk, Advance, Aligned, Slice, WriteAt;
    var n := |data|;
    var block := Slice(input, k.written, k.block);
    StridedTurn(data, t, b, k);
    SameAmount(n, t, b, k);
    AdvanceOk(n, t, b, k, |block|);
    SliceSize(input, k.written, k.block);
    var k2 := Advance(n, t, k, |block|);
    if Cut(n, k) {
      NeverShrinks(input, t, k2, WriteAt(file, k.pos, block));
    } else {
      BeforeCutStep(n, t, b, k);
      Overshoots(data, t, b, k2, input, WriteAt(file, k.pos, block));
    }
  }

  lemma SliceSize(input: seq<Byte>, w: nat, block: nat)
    requires w <= |input|
    ensures |Slice(input, w, block)| == Min(block, |input| - w)
  {}

  // ---------------------------------------------------------------- blocks longer than the stride

  /** With overlapping blocks, where the last block copied ends. */
  function LastEnd(n: nat, t: nat, b: nat, pos: nat, written: nat): (r: nat)
    requires b >= 1
    ensures r <= n
    decreases n - written
  {
    if written + b >= n || pos + b >= n then Min(pos + b, n) else LastEnd(n, t, b, pos + t, written + b)
  }

  /** Overlapping blocks: ostridecat61 restores the file up to the end of the last block, and no more. */
  lemma {:induction false} WideCopy(data: seq<Byte>, t: nat, b: nat, k: Cursor, input: seq<Byte>, file: seq<Byte>)
    requires 1 <= t < b && k.block == b && k.pos <= k.written < |data|
    requires k.pos <= |file| <= |data| && file == data[..|file|] && |file| < k.pos + b
    requires k.written <= |input| && input[k.written..] == Strided(data, t, k)
    ensures Unstrided(input, t, k, file) == data[..LastEnd(|data|, t, b, k.pos, k.written)]
    decreases |data| - k.written
  {
    hide Slice, Strided, Unstrided, WriteAt;
    var n := |data|;
    var len := Min(b, n - k.pos);
    var k2 := Advance(n, t, k, len);
    BlockAt(data, k.pos, b);
    StridedStep(data, t, k);
    CopyStops(data, t, k2, []);
    AdvanceWritten(n, t, k, len);
    BlockIs(input, k.written, b, data[k.pos..k.pos + len], Strided(data, t, k2));
    UnstridedStep(input, t, k, file);
    WideWrite(data, file, k.pos, len);
    if k2.written < n {
      WideCopy(data, t, b, k2, input, data[..k.pos + len]);
    } else {
      var k3 := Advance(|input|, t, k, len);
      AdvanceWritten(|input|, t, k, len);
      CopyStops(input, t, k3, data[..k.pos + len]);
    }
  }

  /** Writing the next block, which overlaps what is there, extends the restored part. */
  lemma WideWrite(data: seq<Byte>, file: seq<Byte>, pos: nat, len: nat)
    requires pos <= |file| <= pos + len <= |data| && file == data[..|file|] && 0 < len
    ensures WriteAt(file, pos, data[pos..pos + len]) == data[..pos + len]
  {}

  /** `last` is the last row of blocks of b bytes in n bytes. */
  lemma {:induction false} WideEnd(n: nat, t: nat, b: nat, r: nat, last: nat)
    requires 1 <= t < b && r <= last && last * b < n <= last * b + b
    ensures LastEnd(n, t, b, r * t, r * b) == Min(last * t + b, n)
    decreases last - r
  {
    assert (r + 1) * b == r * b + b && (r + 1) * t == r * t + t;
    if r < last {
      MulMonotone(r + 1, last, b);
      MulMonotone(r, last, t);
      if r * t + b < n {
        WideEnd(n, t, b, r + 1, last);
      }
    }
  }

  lemma MulMonotone(x: nat, y: nat, t: nat)
    requires x <= y
    ensures x * t <= y * t
  {}

  /** When ostridecat61 undoes stridecat61: an aligned file, or overlapping blocks of which the last reaches the end. */
  predicate Restores(n: nat, t: nat, b: nat)
    requires t >= 1 && b >= 1
  {
    if b <= t then Aligned(n, t, b) else n == 0 || (n - 1) / b * t + b >= n
  }

  /**
   * Running ostridecat61 on stridecat61's output, with the same stride and block size, restores the
   * file exactly in these cases; otherwise the result is longer than the file if the stride has room
   * for the blocks, and the beginning of the file if they overlap.
   */
  lemma RoundTrip(data: seq<Byte>, t: nat, b: nat)
    requires 1 <= t <= SIZE_MAX && b >= 1
    ensures var back := Unstrided(Strided(data, t, Start(b)), t, Start(b), []);
      && (back == data <==> Restores(|data|, t, b))
      && (!Restores(|data|, t, b) ==> if b <= t then |back| > |data| else |back| < |data| && back == data[..|back|])
  {
    hide Strided, Unstrided, Aligned;
    if b <= t {
      NarrowRoundTrip(data, t, b);
    } else {
      WideRoundTrip(data, t, b);
      if data != [] {
        LastEndIs(|data|, t, b);
      }
    }
  }

  lemma WideRoundTrip(data: seq<Byte>, t: nat, b: nat)
    requires 1 <= t < b
    ensures Unstrided(Strided(data, t, Start(b)), t, Start(b), []) ==
      if data == [] then [] else data[..LastEnd(|data|, t, b, 0, 0)]
  {
    hide Strided, Unstrided, LastEnd;
    var input := Strided(data, t, Start(b));
    CopyStops(data, t, Start(b), []);
    CopyStops(input, t, Start(b), []);
    if data != [] {
      assert input[0..] == input;
      WideCopy(data, t, b, Start(b), input, []);
    }
  }

  /** Where the last block ends, in closed form. */
  lemma LastEndIs(n: nat, t: nat, b: nat)
    requires 1 <= t < b && n > 0
    ensures LastEnd(n, t, b, 0, 0) == Min((n - 1) / b * t + b, n)
  {
    hide LastEnd;
    var last := (n - 1) / b;
    assert n - 1 == last * b + (n - 1) % b;
    assert 0 * t == 0 && 0 * b == 0;
    WideEnd(n, t, b, 0, last);
  }

  lemma NarrowRoundTrip(data: seq<Byte>, t: nat, b: nat)
    requires 1 <= b <= t <= SIZE_MAX
    ensures Unstrided(Strided(data, t, Start(b)), t, Start(b), []) == data <==> Aligned(|data|, t, b)
    ensures !Aligned(|data|, t, b) ==> |Unstrided(Strided(data, t, Start(b)), t, Start(b), [])| > |data|
  {
    var input := Strided(data, t, Start(b));
    StrideCatPermutes(data, t, b);
    StartOk(|data|, t, b);
    if Aligned(|data|, t, b) {
      assert input[0..] == input;
      PutBack(data, t, b, Start(b), input, []);
    } else {
      StartBeforeCut(|data|, t, b);
      Overshoots(data, t, b, Start(b), input, []);
    }
  }

  lemma StartBeforeCut(n: nat, t: nat, b: nat)
    requires 1 <= b <= t && !Aligned(n, t, b)
    ensures n > 0 && BeforeCut(n, t, b, Start(b))
  {
    var m := n % t;
    assert m % b <= m by {
      if m < b {
        DivUnique(m, b, 0, m);
      }
    }
  }

  /** stridecat61, then ostridecat61 on its output. */
  method StrideAndBack(data: seq<Byte>, t: nat, b: nat) returns (file: seq<Byte>)
    requires 1 <= t <= SIZE_MAX && b >= 1
    ensures file == data <==> Restores(|data|, t, b)
    ensures !Restores(|data|, t, b) ==> if b <= t then |file| > |data| else |file| < |data| && file == data[..|file|]
  {
    hide Strided, Unstrided, Restores;
    RoundTrip(data, t, b);
    var strided := StrideCat(data, t, b);
    file := OStrideCat(strided, t, b);
  }

  /** Two cases in which every file is restored: blocks of one byte, and a stride that divides the file size. */
  lemma RoundTripCases(data: seq<Byte>, t: nat, b: nat)
    requires 1 <= b <= t <= SIZE_MAX && (b == 1 || |data| % t == 0)
    ensures Unstrided(Strided(data, t, Start(b)), t, Start(b), []) == data
  {
    hide Unstrided, Strided, Aligned;
    RoundTrip(data, t, b);
    AlignedCases(|data|, t, b);
  }

  lemma AlignedCases(n: nat, t: nat, b: nat)
    requires 1 <= b <= t && (b == 1 || n % t == 0)
    ensures Aligned(n, t, b)
  {
    var m := n % t;
    if b == 1 {
      assert m % 1 == 0;
    } else {
      DivUnique(0, b, 0, 0);
    }
  }
}
