/**
 * ostridecat61 with the files of pset3/io61.c: it seeks behind each block, so the part of it that does
 * not fill a buffer goes where the next block belongs, and a block that a copy loop does not serve
 * ends it. Where each byte lands, and that this decides what comes back.
 */
module StrideCached {
  import opened Common
  import opened CopyLoop
  import opened Io61
  import opened Io61Writer
  import opened Stride

  // ---------------------------------------------------------------- ostridecat61 on io61.c

  /** The part of n bytes that fills whole buffers. */
  function Whole(n: nat): (r: nat)
    ensures r <= n < r + BUFFER_SIZE && r % BUFFER_SIZE == 0
  {
    n - n % BUFFER_SIZE
  }

  /** A block written and then a seek to `next`: whole buffers go to the descriptor's position, the rest to `next`. */
  function BlockAndSeek(out: Plain, block: seq<Byte>, next: nat): Plain {
    Put(Plain(Put(out, block[..Whole(|block|)]).file, next), block[Whole(|block|)..])
  }

  /**
   * io61_read of k's block, n bytes being read in order up to k, and io61_write of what it returns, on
   * an empty buffer: whether the copy loops of both serve them.
   */
  predicate TurnServed(n: nat, k: Cursor)
    requires k.written < n
  {
    var first, rest := BUFFER_SIZE - k.written % BUFFER_SIZE, n - k.written;
    Serves(k.block, Min(first, rest), rest) && Accepts(0, Min(k.block, rest))
  }

  /**
   * What the copy loop of ostridecat61 makes of its output file from k on, nothing being collected.
   * None: a read or a write is not served.
   */
  function CachedUnstrided(input: seq<Byte>, t: nat, k: Cursor, out: Plain): Option<Plain>
    requires t >= 1
    decreases |input| - k.written
  {
    var block := Slice(input, k.written, k.block);
    if k.written >= |input| then Some(out)
    else if !TurnServed(|input|, k) then None
    else if block == [] then Some(out)
    else
      var k2 := Advance(|input|, t, k, |block|);
      CachedUnstrided(input, t, k2, BlockAndSeek(out, block, k2.pos))
  }

  lemma CachedStop(input: seq<Byte>, t: nat, k: Cursor, out: Plain)
    requires t >= 1 && (k.written >= |input| || k.block == 0)
    ensures CachedUnstrided(input, t, k, out) == Some(out)
  {
    SliceSize(input, if k.written <= |input| then k.written else |input|, k.block);
  }

  lemma CachedTurn(input: seq<Byte>, t: nat, k: Cursor, out: Plain)
    requires t >= 1 && k.written < |input| && k.block > 0
    ensures var block := Slice(input, k.written, k.block);
            var k2 := Advance(|input|, t, k, |block|);
            CachedUnstrided(input, t, k, out) ==
              if TurnServed(|input|, k) then CachedUnstrided(input, t, k2, BlockAndSeek(out, block, k2.pos)) else None
  {
    BlockAt(input, k.written, k.block);
  }

  /** All reads and writes from k on are served. */
  predicate AllServed(n: nat, t: nat, k: Cursor)
    requires t >= 1
    decreases n - k.written
  {
    k.written >= n || k.block == 0
    || (TurnServed(n, k) && AllServed(n, t, Advance(n, t, k, Min(k.block, n - k.written))))
  }

  /** Of the bytes written at fd and on, those in u.buf are still collected. */
  ghost predicate Splits(file: seq<Byte>, fd: nat, all: seq<Byte>, u: Cached) {
    var m := |all| - |u.buf|;
    0 <= m && u.buf == all[m..] && u.fd == fd + m && u.file == WriteAt(file, fd, all[..m])
  }

  lemma ByteSplits(file: seq<Byte>, fd: nat, all: seq<Byte>, u: Cached, b: Byte)
    requires Splits(file, fd, all, u)
    ensures Splits(file, fd, all + [b], PutByte(u, b))
  {
    hide WriteAt;
    var m := |all| - |u.buf|;
    if |u.buf| == BUFFER_SIZE {
      WriteAppend(file, fd, all[..m], u.buf);
      assert all[..m] + u.buf == all;
      assert (all + [b])[..|all|] == all;
    } else {
      assert (all + [b])[..m] == all[..m];
      assert (all + [b])[m..] == all[m..] + [b];
    }
  }

  /** What is collected is a suffix of what was written; the rest is in the file. */
  lemma {:induction false} PutSplits(s: Cached, bytes: seq<Byte>)
    requires |s.buf| <= BUFFER_SIZE
    ensures Splits(s.file, s.fd, s.buf + bytes, PutBytes(s, bytes))
    decreases |bytes|
  {
    hide WriteAt, PutByte;
    if bytes == [] {
      assert s.buf + bytes == s.buf && s.buf[..0] == [];
      WriteNothing(s.file, s.fd);
    } else {
      var init, last := bytes[..|bytes| - 1], bytes[|bytes| - 1];
      PutSplits(s, init);
      ByteSplits(s.file, s.fd, s.buf + init, PutBytes(s, init), last);
      assert s.buf + bytes == s.buf + init + [last] by {
        assert init + [last] == bytes;
      }
    }
  }

  lemma WriteNothing(file: seq<Byte>, pos: nat)
    ensures WriteAt(file, pos, []) == file
  {}

  lemma EmptiedSplits(file: seq<Byte>, fd: nat, all: seq<Byte>, u: Cached)
    requires Splits(file, fd, all, u)
    ensures Splits(file, fd, all, Emptied(u))
  {
    hide WriteAt;
    if |u.buf| == BUFFER_SIZE {
      var m := |all| - |u.buf|;
      WriteAppend(file, fd, all[..m], u.buf);
      assert all[..m] + u.buf == all == all[..|all|];
    }
  }

  /** What io61_write leaves in the buffer. */
  lemma LeftOver(s: Cached, block: seq<Byte>)
    requires s.buf == []
    ensures |Emptied(PutBytes(s, block)).buf| == |block| - Whole(|block|)
  {
    hide PutBytes, Close;
    PutCloses(s, block);
    Wraps(0, |block|);
  }

  /** io61_write of a block, on a buffer that is empty. */
  lemma BlockWritten(out: Plain, block: seq<Byte>)
    ensures var w := Whole(|block|);
      Emptied(PutBytes(Cached(out.file, out.fd, []), block))
        == Cached(WriteAt(out.file, out.fd, block[..w]), out.fd + w, block[w..])
  {
    hide PutBytes, WriteAt, Emptied, Whole;
    var s := Cached(out.file, out.fd, []);
    LeftOver(s, block);
    PutSplits(s, block);
    assert s.buf + block == block;
    EmptiedSplits(s.file, s.fd, block, PutBytes(s, block));
  }

  /** io61_write of a block that is served and io61_seek, on a buffer that is empty. */
  lemma BlockAndSeekIs(out: Plain, block: Buffer, next: nat)
    requires Accepts(0, |block|)
    ensures var s := CachedStep(Cached(out.file, out.fd, []), PutBlock(block));
            var p := BlockAndSeek(out, block, next);
            s.Some? && CachedStep(s.value, MoveTo(next)) == Some(Cached(p.file, p.fd, []))
  {
    hide PutBytes, WriteAt, Emptied, Whole, Accepts;
    BlockWritten(out, block);
  }

  /** ostridecat61 has copied at least as much as stridecat61 at the same place. */
  ghost predicate Ahead(n: nat, t: nat, b: nat, k: Cursor) {
    CursorOk(n, t, b, k) && n - k.written <= |Route(n, t, b, k)| && k.block <= b
  }

  lemma AheadBlock(n: nat, t: nat, b: nat, k: Cursor)
    requires Ahead(n, t, b, k)
    ensures k.block <= b
  {}

  lemma StartAhead(n: nat, t: nat, b: nat)
    requires 1 <= b <= t <= SIZE_MAX
    ensures Ahead(n, t, b, Start(b))
  {
    EachOffsetOnce(n, t, b);
  }

  lemma AheadTurn(n: nat, t: nat, b: nat, k: Cursor)
    requires Ahead(n, t, b, k) && k.written < n
    ensures k.block > 0 && k.pos < n && Ahead(n, t, b, Advance(n, t, k, Min(k.block, n - k.written)))
  {
    hide CursorOk, Advance;
    RouteStep(n, t, b, k);
    AdvanceOk(n, t, b, k, Min(k.block, n - k.written));
    AdvanceOk(n, t, b, k, Min(k.block, n - k.pos));
    var k2 := Advance(n, t, k, Min(k.block, n - k.written));
    BlockAtMost(n, t, b, k2);
    SameRoute(n, t, b, Advance(n, t, k, Min(k.block, n - k.pos)), k2);
  }

  lemma BlockAtMost(n: nat, t: nat, b: nat, k: Cursor)
    requires CursorOk(n, t, b, k)
    ensures k.block <= b
  {}

  /** The route does not depend on how much was copied. */
  lemma {:induction false} SameRoute(n: nat, t: nat, b: nat, k: Cursor, k2: Cursor)
    requires CursorOk(n, t, b, k) && CursorOk(n, t, b, k2) && k.pos == k2.pos && k.block == k2.block
    ensures Route(n, t, b, k) == Route(n, t, b, k2)
    decreases if k.block == 0 then 0 else t - k.pos % t, n - k.pos
  {
    hide CursorOk, Advance;
    RouteStep(n, t, b, k);
    RouteStep(n, t, b, k2);
    if k.block > 0 && k.pos < n {
      var len := Min(k.block, n - k.pos);
      AdvanceOk(n, t, b, k, len);
      AdvanceOk(n, t, b, k2, len);
      SamePlace(n, t, k, k2, len);
      SameRoute(n, t, b, Advance(n, t, k, len), Advance(n, t, k2, len));
    }
  }

  lemma SamePlace(n: nat, t: nat, k: Cursor, k2: Cursor, len: nat)
    requires t >= 1 && k.pos == k2.pos && k.block == k2.block
    ensures Advance(n, t, k, len).pos == Advance(n, t, k2, len).pos
    ensures Advance(n, t, k, len).block == Advance(n, t, k2, len).block
  {}

  // ---------------------------------------------------------------- stridecat61 on io61.c

  /** stridecat61 has copied what the route before k visits. */
  ghost predicate Halfway(n: nat, t: nat, b: nat, k: Cursor) {
    CursorOk(n, t, b, k) && k.written + |Route(n, t, b, k)| == n && k.block <= b
  }

  lemma StartHalfway(n: nat, t: nat, b: nat)
    requires 1 <= b <= t <= SIZE_MAX
    ensures Halfway(n, t, b, Start(b)) && (n > 0 ==> Start(b).pos < n)
  {
    EachOffsetOnce(n, t, b);
  }

  lemma HalfwayTurn(data: seq<Byte>, t: nat, b: nat, k: Cursor)
    requires Halfway(|data|, t, b, k) && k.written < |data|
    ensures k.block > 0 && k.pos < |data| && k.block <= b
    ensures var n := |data|;
      var block := Slice(data, k.pos, k.block);
      var k2 := Advance(n, t, k, |block|);
      && block != [] && Strided(data, t, k) == block + Strided(data, t, k2)
      && Halfway(n, t, b, k2) && (k2.pos <= t || k2.pos < n) && (k2.written < n ==> k2.pos < n)
  {
    hide CursorOk, Advance, Strided;
    var n := |data|;
    RouteStep(n, t, b, k);
    StridedTurn(data, t, b, k);
    BlockAt(data, k.pos, k.block);
    AdvanceOk(n, t, b, k, Min(k.block, n - k.pos));
    var k2 := Advance(n, t, k, Min(k.block, n - k.pos));
    BlockAtMost(n, t, b, k2);
    RouteStep(n, t, b, k2);
  }

  // ---------------------------------------------------------------- where the bytes land

  /** Where ostridecat61 puts its input's bytes from k on, the descriptor being at fd. */
  function Landing(n: nat, t: nat, k: Cursor, fd: nat): (r: seq<nat>)
    requires t >= 1
    ensures |r| <= if k.written <= n then n - k.written else 0
    decreases n - k.written
  {
    if k.written >= n || k.block == 0 then []
    else
      var a := Min(k.block, n - k.written);
      var k2 := Advance(n, t, k, a);
      Range(fd, Whole(a)) + Range(k2.pos, a - Whole(a)) + Landing(n, t, k2, k2.pos + a - Whole(a))
  }

  /** Bytes written one by one, each at its position. */
  function PutAll(file: seq<Byte>, ps: seq<nat>, bs: seq<Byte>): seq<Byte>
    requires |ps| <= |bs|
    decreases |ps|
  {
    if ps == [] then file else PutAll(WriteAt(file, ps[0], [bs[0]]), ps[1..], bs[1..])
  }

  lemma {:induction false} PutAllAppend(file: seq<Byte>, ps: seq<nat>, qs: seq<nat>, bs: seq<Byte>)
    requires |ps| + |qs| <= |bs|
    ensures PutAll(file, ps + qs, bs) == PutAll(PutAll(file, ps, bs[..|ps|]), qs, bs[|ps|..])
    decreases |ps|
  {
    hide WriteAt;
    if ps == [] {
      assert ps + qs == qs && bs[0..] == bs;
    } else {
      var next := WriteAt(file, ps[0], [bs[0]]);
      PutAllAppend(next, ps[1..], qs, bs[1..]);
      assert (ps + qs)[1..] == ps[1..] + qs;
      assert bs[1..][..|ps| - 1] == bs[..|ps|][1..];
      assert bs[1..][|ps| - 1..] == bs[|ps|..];
    }
  }

  lemma {:induction false} PutAllRange(file: seq<Byte>, pos: nat, bytes: seq<Byte>)
    ensures PutAll(file, Range(pos, |bytes|), bytes) == WriteAt(file, pos, bytes)
    decreases |bytes|
  {
    hide WriteAt;
    if bytes == [] {
      WriteNothing(file, pos);
    } else {
      var next := WriteAt(file, pos, [bytes[0]]);
      assert Range(pos, |bytes|)[1..] == Range(pos + 1, |bytes| - 1);
      PutAllRange(next, pos + 1, bytes[1..]);
      WriteAppend(file, pos, [bytes[0]], bytes[1..]);
      assert [bytes[0]] + bytes[1..] == bytes;
    }
  }

  /** Two ranges take the two parts of a block. */
  lemma PutTwice(file: seq<Byte>, fd: nat, next: nat, block: seq<Byte>, w: nat)
    requires w <= |block|
    ensures |Range(fd, w) + Range(next, |block| - w)| == |block|
    ensures PutAll(file, Range(fd, w) + Range(next, |block| - w), block) ==
      WriteAt(WriteAt(file, fd, block[..w]), next, block[w..])
  {
    hide WriteAt, PutAll;
    var first, second := Range(fd, w), Range(next, |block| - w);
    PutAllAppend(file, first, second, block);
    PutAllRange(file, fd, block[..w]);
    PutAllRange(WriteAt(file, fd, block[..w]), next, block[w..]);
  }

  /** One block of ostridecat61. */
  lemma PutBlockAndSeek(out: Plain, block: seq<Byte>, next: nat, rest: seq<nat>, bs: seq<Byte>)
    requires |block| + |rest| <= |bs| && bs[..|block|] == block
    ensures var w, p := Whole(|block|), BlockAndSeek(out, block, next);
      && PutAll(out.file, Range(out.fd, w) + Range(next, |block| - w) + rest, bs) == PutAll(p.file, rest, bs[|block|..])
      && p.fd == next + |block| - w
  {
    hide WriteAt, Whole, PutAll, Range;
    var w := Whole(|block|);
    PutTwice(out.file, out.fd, next, block, w);
    PutAllAppend(out.file, Range(out.fd, w) + Range(next, |block| - w), rest, bs);
  }

  /** If all is served, the copy loop of ostridecat61 puts each byte where Landing says; otherwise it fails. */
  lemma {:induction false} CachedLands(input: seq<Byte>, t: nat, k: Cursor, out: Plain)
    requires t >= 1 && k.written <= |input|
    ensures var r := CachedUnstrided(input, t, k, out);
      && r.Some? == AllServed(|input|, t, k)
      && (r.Some? ==> r.value.file == PutAll(out.file, Landing(|input|, t, k, out.fd), input[k.written..]))
    decreases |input| - k.written
  {
    hide Advance, BlockAndSeek, Slice, PutAll, Whole, CachedUnstrided, TurnServed;
    var n := |input|;
    if k.written >= n || k.block == 0 {
      CachedStop(input, t, k, out);
      NothingPut(out.file, input[k.written..]);
    } else {
      var block := Slice(input, k.written, k.block);
      SliceSize(input, k.written, k.block);
      CachedTurn(input, t, k, out);
      BlockAt(input, k.written, k.block);
      var k2 := Advance(n, t, k, |block|);
      AdvanceWritten(n, t, k, |block|);
      CachedLands(input, t, k2, BlockAndSeek(out, block, k2.pos));
      PutBlockAndSeek(out, block, k2.pos, Landing(n, t, k2, k2.pos + |block| - Whole(|block|)), input[k.written..]);
      assert input[k.written..][|block|..] == input[k2.written..];
    }
  }

  lemma NothingPut(file: seq<Byte>, bs: seq<Byte>)
    ensures PutAll(file, [], bs) == file
  {}

  // ---------------------------------------------------------------- restored exactly if every byte lands at home

  /** Bytes put where they come from are there. */
  lemma {:induction false} PutAllHome(file: seq<Byte>, ps: seq<nat>, data: seq<Byte>, x: nat)
    requires (forall i :: 0 <= i < |ps| ==> ps[i] < |data|) && |file| <= |data|
    ensures var r := PutAll(file, ps, Stride.Pick(data, ps));
      && |file| <= |r| <= |data|
      && (x in ps || (x < |file| && file[x] == data[x]) ==> x < |r| && r[x] == data[x])
    decreases |ps|
  {
    hide WriteAt;
    if ps != [] {
      WriteIs(file, ps[0], [data[ps[0]]]);
      assert Stride.Pick(data, ps)[1..] == Stride.Pick(data, ps[1..]);
      PutAllHome(WriteAt(file, ps[0], [data[ps[0]]]), ps[1..], data, x);
    }
  }

  /** A place to which only zeros go holds a zero. */
  lemma {:induction false} PutAllZero(file: seq<Byte>, ps: seq<nat>, bs: seq<Byte>, x: nat)
    requires |ps| <= |bs| && (forall i :: 0 <= i < |ps| && ps[i] == x ==> bs[i] == 0) && (x < |file| ==> file[x] == 0)
    ensures x < |PutAll(file, ps, bs)| ==> PutAll(file, ps, bs)[x] == 0
    decreases |ps|
  {
    hide WriteAt;
    if ps != [] {
      WriteIs(file, ps[0], [bs[0]]);
      PutAllZero(WriteAt(file, ps[0], [bs[0]]), ps[1..], bs[1..], x);
    }
  }

  function FileLeft(r: Option<Plain>): Option<seq<Byte>> { if r.Some? then Some(r.value.file) else None }

  /** What ostridecat61 makes of stridecat61's output; None: a read or a write is not served. */
  function CachedBack(data: seq<Byte>, t: nat, b: nat): Option<seq<Byte>>
    requires t >= 1
  {
    FileLeft(CachedUnstrided(Strided(data, t, Start(b)), t, Start(b), Plain([], 0)))
  }

  /** Every byte is read and written, and lands where it comes from. */
  predicate Home(n: nat, t: nat, b: nat, k: Cursor, fd: nat)
    requires CursorOk(n, t, b, k)
  {
    AllServed(n, t, k) && Landing(n, t, k, fd) == Route(n, t, b, k)
  }

  lemma BackIs(data: seq<Byte>, t: nat, b: nat)
    requires 1 <= b <= t <= SIZE_MAX
    ensures var n := |data|;
      && CursorOk(n, t, b, Start(b)) && |Route(n, t, b, Start(b))| == n
      && (forall i :: 0 <= i < n ==> Route(n, t, b, Start(b))[i] < n)
      && CachedBack(data, t, b) ==
           if AllServed(n, t, Start(b))
           then Some(PutAll([], Landing(n, t, Start(b), 0), Stride.Pick(data, Route(n, t, b, Start(b)))))
           else None
  {
    hide Landing, Route, PutAll, CachedUnstrided, Strided, AllServed;
    StrideCatPermutes(data, t, b);
    EachOffsetOnce(|data|, t, b);
    var input := Strided(data, t, Start(b));
    CachedLands(input, t, Start(b), Plain([], 0));
    assert input[0..] == input;
  }

  lemma HomeRestores(data: seq<Byte>, t: nat, b: nat)
    requires 1 <= b <= t <= SIZE_MAX
    requires CursorOk(|data|, t, b, Start(b)) && Home(|data|, t, b, Start(b), 0)
    ensures CachedBack(data, t, b) == Some(data)
  {
    hide Landing, Route, PutAll, CachedBack, CursorOk, AllServed;
    BackIs(data, t, b);
    EachOffsetOnce(|data|, t, b);
    var n, route, back := |data|, Route(|data|, t, b, Start(b)), CachedBack(data, t, b).value;
    forall x: nat | x < n ensures x < |back| <= n && back[x] == data[x] {
      RangeCount(0, n, x);
      assert x in multiset(route);
      PutAllHome([], route, data, x);
    }
    PutAllHome([], route, data, 0);
    assert |back| == n by {
      if n > 0 {
        assert back[n - 1] == data[n - 1];
      }
    }
    assert back == data;
  }

  /** All zeros but for one byte. */
  function Unit(n: nat, x: nat): (r: seq<Byte>)
    ensures |r| == n && forall i :: 0 <= i < n ==> r[i] == if i == x then 1 else 0
  {
    seq(n, i => if i == x then 1 else 0)
  }

  lemma Twice(route: seq<nat>, i: nat, j: nat)
    requires i < j < |route| && route[i] == route[j]
    ensures multiset(route)[route[i]] >= 2
  {
    var x := route[i];
    assert route == route[..j] + [x] + route[j + 1..];
    assert x == route[..j][i];
    assert multiset(route) == multiset(route[..j]) + multiset{x} + multiset(route[j + 1..]);
  }

  lemma NoTwice(route: seq<nat>, n: nat, i: nat, j: nat)
    requires multiset(route) == multiset(Range(0, n)) && i < j < |route|
    ensures route[i] != route[j]
  {
    RangeCount(0, n, route[i]);
    if route[i] == route[j] {
      Twice(route, i, j);
    }
  }

  /** A byte that does not land at home is lost from some file; if not all is served, so is every file. */
  lemma AwayLoses(n: nat, t: nat, b: nat) returns (data: seq<Byte>)
    requires 1 <= b <= t <= SIZE_MAX
    requires CursorOk(n, t, b, Start(b)) && !Home(n, t, b, Start(b), 0)
    ensures |data| == n && CachedBack(data, t, b) != Some(data)
  {
    hide Landing, Route, PutAll, CachedBack, CursorOk, AllServed;
    EachOffsetOnce(n, t, b);
    if !AllServed(n, t, Start(b)) {
      data := Unit(n, 0);
      BackIs(data, t, b);
      return;
    }
    var land, route := Landing(n, t, Start(b), 0), Route(n, t, b, Start(b));
    var w: nat :| w < n && (w >= |land| || land[w] != route[w]);
    var x := route[w];
    data := Unit(n, x);
    BackIs(data, t, b);
    var bs := Stride.Pick(data, route);
    forall i | 0 <= i < |land| && land[i] == x ensures bs[i] == 0 {
      if i < w {
        NoTwice(route, n, i, w);
      } else if i > w {
        NoTwice(route, n, w, i);
      }
    }
    PutAllZero([], land, bs, x);
  }
}
