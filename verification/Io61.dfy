/**
 * Buffered file input and output: the 12-slot cache of pset3/io61.c beside the unbuffered
 * pset3/slow-io61.c. Both readers are proved against the same meaning of a file position.
 */
module Io61 {
  import opened Common
  import opened CopyLoop

  const NUM_CACHE := 12
  const EOF := -1

  /** Conversion to int and to unsigned char. */
  function ToInt(x: int): int { (x + 0x8000_0000) % 0x1_0000_0000 - 0x8000_0000 }

  function ToByte(ch: int): Byte { ch % 256 }

  /**
   * The difference of two positions, computed in size_t and stored in an int: -1 if it is, or if it
   * is too large for an int.
   */
  lemma IntOfSize(x: int)
    requires -0x8000_0000 <= x <= 0x8000_0000_0000_0000
    ensures ToInt(ToSize(x)) == -1 ==> x == -1 || x >= 0xFFFF_FFFF
    ensures x == -1 ==> ToInt(ToSize(x)) == -1
  {
    if x < 0 {
      assert ToSize(x) == x + 0x1_0000_0000_0000_0000;
      assert ToSize(x) + 0x8000_0000 == (x + 0x8000_0000) + 0x1_0000_0000 * 0x1_0000_0000;
    }
  }

  // ---------------------------------------------------------------- meaning

  datatype Op = GetChar | GetBlock(sz: nat) | SeekTo(pos: nat)

  datatype Outcome = Char(ch: int) | Block(bytes: seq<Byte>) | Sought(r: int)

  /** The bytes a read of sz at position p returns: as many as there are, up to sz. */
  function Slice(data: seq<Byte>, p: nat, sz: nat): seq<Byte> {
    if p > |data| then [] else if sz <= |data| - p then data[p..p + sz] else data[p..]
  }

  /** What an operation at position p returns, and the position behind it. */
  function Meaning(data: seq<Byte>, p: nat, op: Op): (Outcome, nat) {
    match op
    case GetChar => if p < |data| then (Char(data[p]), p + 1) else (Char(EOF), p)
    case GetBlock(sz) => (Block(Slice(data, p, sz)), p + |Slice(data, p, sz)|)
    case SeekTo(pos) => (Sought(0), pos)
  }

  function Outcomes(data: seq<Byte>, p: nat, ops: seq<Op>): (r: seq<Outcome>)
    ensures |r| == |ops|
    decreases |ops|
  {
    if ops == [] then []
    else [Meaning(data, p, ops[0]).0] + Outcomes(data, Meaning(data, p, ops[0]).1, ops[1..])
  }

  /** Where a sequence of operations leaves the file. */
  function Position(data: seq<Byte>, p: nat, ops: seq<Op>): nat
    decreases |ops|
  {
    if ops == [] then p else Position(data, Meaning(data, p, ops[0]).1, ops[1..])
  }

  lemma {:induction false} OutcomesAppend(data: seq<Byte>, p: nat, ops: seq<Op>, op: Op)
    ensures var q := Position(data, p, ops);
      && Position(data, p, ops + [op]) == Meaning(data, q, op).1
      && Outcomes(data, p, ops + [op]) == Outcomes(data, p, ops) + [Meaning(data, q, op).0]
    decreases |ops|
  {
    if ops == [] {
      assert Outcomes(data, Meaning(data, p, op).1, []) == [];
      assert ops + [op] == [op] && [op][1..] == [];
    } else {
      assert (ops + [op])[1..] == ops[1..] + [op];
      OutcomesAppend(data, Meaning(data, p, ops[0]).1, ops[1..], op);
    }
  }

  /** The bytes that an outcome delivers. */
  function Delivered(o: Outcome): seq<Byte> {
    match o
    case Char(ch) => if 0 <= ch < 256 then [ch] else []
    case Block(bytes) => bytes
    case Sought(_) => []
  }

  function AllDelivered(os: seq<Outcome>): seq<Byte> {
    if os == [] then [] else Delivered(os[0]) + AllDelivered(os[1..])
  }

  lemma DeliveredIs(data: seq<Byte>, p: nat, op: Op)
    requires p <= |data| && !op.SeekTo?
    ensures var (o, q) := Meaning(data, p, op); p <= q <= |data| && Delivered(o) == data[p..q]
  {}

  /** Reads that do not seek deliver the file's bytes one after the other, none skipped and none twice. */
  lemma {:induction false} ReadsInOrder(data: seq<Byte>, p: nat, ops: seq<Op>)
    requires p <= |data| && forall k :: 0 <= k < |ops| ==> !ops[k].SeekTo?
    ensures p <= Position(data, p, ops) <= |data|
    ensures AllDelivered(Outcomes(data, p, ops)) == data[p..Position(data, p, ops)]
    decreases |ops|
  {
    hide Meaning, Delivered;
    if ops != [] {
      var (o, q) := Meaning(data, p, ops[0]);
      DeliveredIs(data, p, ops[0]);
      ReadsInOrder(data, q, ops[1..]);
      assert data[p..q] + data[q..Position(data, q, ops[1..])] == data[p..Position(data, q, ops[1..])];
    }
  }

  // ---------------------------------------------------------------- the cached reader

  /** A cache_slot of a mapped file; strBuf is the index in the mapping that str_buf points to. */
  datatype Slot = Slot(strBuf: nat, isActive: bool, pos: nat, offset: nat, buffSize: nat, createdCount: int)

  ghost predicate Caches(data: seq<Byte>, s: Slot) {
    s.strBuf == s.offset < |data| && s.pos <= s.buffSize == Min(BUFFER_SIZE, |data| - s.offset)
  }

  /** A slot whose bytes were all read, at end of file; it may have lost its data to a refill that found nothing. */
  ghost predicate Exhausted(data: seq<Byte>, s: Slot) { s.pos == s.buffSize && s.offset + s.pos == |data| }

  ghost predicate Holds(s: Slot, offset: nat) {
    s.isActive && s.offset <= offset < s.offset + s.buffSize
  }

  /**
   * get_free_cache on the slots from i on, with the earliest created so far: the first inactive
   * slot, else the earliest created.
   */
  function Pick(slots: seq<Slot>, i: nat, oldest: nat, lowest: int): (k: nat)
    requires i <= |slots| && oldest < |slots|
    ensures k < |slots|
    decreases |slots| - i
  {
    if i == |slots| then oldest
    else if !slots[i].isActive then i
    else if slots[i].createdCount < lowest then Pick(slots, i + 1, i, slots[i].createdCount)
    else Pick(slots, i + 1, oldest, lowest)
  }

  /** How far it is from p to the next end of a buffer, whole ones from `edge` on and back. */
  function ToEdge(edge: nat, p: nat): (d: nat)
    ensures 1 <= d <= BUFFER_SIZE
  {
    if (edge - p) % BUFFER_SIZE == 0 then BUFFER_SIZE else (edge - p) % BUFFER_SIZE
  }

  /** n bytes further on, in a buffer that has `left` bytes left in a file of this size. */
  lemma EdgeNears(edge: nat, p: nat, left: nat, size: nat, n: nat)
    requires p <= size && left == Min(ToEdge(edge, p), size - p) && n <= left
    ensures n < left ==> left - n == Min(ToEdge(edge, p + n), size - (p + n))
    ensures n == left && p + n < size ==> ToEdge(edge, p + n) == BUFFER_SIZE && (p + n - edge) % 4096 == 0
  {}

  /** The slot that the next refill takes. */
  function Victim(slots: seq<Slot>): (k: nat)
    requires |slots| == NUM_CACHE
    ensures k < NUM_CACHE
  {
    Pick(slots, 0, 0, INT_MAX)
  }

  /** Where the blocks in the cache start. */
  function OffsetsOf(slots: seq<Slot>): set<nat> {
    set i | 0 <= i < |slots| && slots[i].isActive :: slots[i].offset
  }

  /** Slots that are active and were before, or start in `extra`. */
  lemma OffsetsFrom(before: seq<Slot>, after: seq<Slot>, extra: set<nat>)
    requires |before| == |after|
    requires forall i :: 0 <= i < |after| && after[i].isActive ==>
      (before[i].isActive && before[i].offset == after[i].offset) || after[i].offset in extra
    ensures OffsetsOf(after) <= OffsetsOf(before) + extra
  {}

  /** Behind p and up to at, blocks came into the cache only where whole buffers behind `edge` end. */
  ghost predicate Grew(os: set<nat>, before: set<nat>, p: nat, edge: nat, at: nat) {
    forall o :: o in os ==> o in before || (p < o <= at && (o - edge) % 4096 == 0)
  }

  /** An io61_file opened O_RDONLY on a regular file with contents `data`. */
  class Reader {
    const data: seq<Byte>
    const cache: array<Slot>
    var curr: int
    var cacheCount: int

    ghost predicate Shape()
      reads this
    {
      cache.Length == NUM_CACHE && -1 <= curr < NUM_CACHE && |data| <= INT_MAX
    }

    ghost predicate SlotsOk()
      requires cache.Length == NUM_CACHE
      reads cache
    {
      forall i :: 0 <= i < NUM_CACHE && cache[i].isActive ==> Caches(data, cache[i])
    }

    ghost predicate Valid()
      reads this, cache
    {
      && Shape() && SlotsOk()
      && (curr != -1 && !cache[curr].isActive ==> Exhausted(data, cache[curr]))
    }

    /** The file position the cache stands for. */
    ghost function At(): nat
      requires Shape()
      reads this, cache
    {
      if curr == -1 then 0 else cache[curr].offset + cache[curr].pos
    }

    /** Where the blocks in the cache start. */
    ghost function Offsets(): set<nat>
      requires cache.Length == NUM_CACHE
      reads cache
    {
      OffsetsOf(cache[..])
    }

    /** io61_fdopen of a file whose size fits an int, with cleared slots. */
    constructor (data: seq<Byte>)
      requires |data| <= INT_MAX
      ensures Valid() && this.data == data && curr == -1 && Offsets() == {} && fresh(cache)
    {
      this.data := data;
      cache := new Slot[NUM_CACHE](i => Slot(0, false, 0, 0, 0, 0));
      curr, cacheCount := -1, 0;
    }

    /** The first inactive slot, which becomes active; otherwise the first of those created earliest. */
    method GetFreeCache() returns (k: nat)
      requires cache.Length == NUM_CACHE
      modifies cache
      ensures k == Victim(old(cache[..])) && forall i :: 0 <= i < NUM_CACHE && i != k ==> cache[i] == old(cache[i])
      ensures cache[k] == old(cache[k]).(isActive := true)
      ensures !old(cache[k]).isActive ==> forall i :: 0 <= i < k ==> old(cache[i]).isActive
      ensures old(cache[k]).isActive ==> forall i :: 0 <= i < NUM_CACHE ==> old(cache[i]).isActive
      ensures old(cache[k]).isActive && old(cache[k]).createdCount < INT_MAX ==>
                && (forall i :: 0 <= i < NUM_CACHE ==> old(cache[k]).createdCount <= old(cache[i]).createdCount)
                && (forall i :: 0 <= i < k ==> old(cache[k]).createdCount < old(cache[i]).createdCount)
    {
      var oldest: nat := 0;
      var lowest := INT_MAX;
      for i := 0 to NUM_CACHE
        invariant 0 <= oldest < NUM_CACHE && cache[..] == old(cache[..])
        invariant Pick(cache[..], i, oldest, lowest) == Victim(old(cache[..]))
        invariant (i > 0 ==> oldest < i) && (i == 0 ==> oldest == 0)
        invariant forall j :: 0 <= j < i ==> cache[j].isActive && lowest <= cache[j].createdCount
        invariant lowest == INT_MAX || (i > 0 && lowest == cache[oldest].createdCount)
        invariant lowest <= INT_MAX && (lowest == INT_MAX ==> oldest == 0)
        invariant forall j :: 0 <= j < oldest ==> lowest < cache[j].createdCount
        invariant forall j :: 0 <= j < NUM_CACHE ==> cache[j] == old(cache[j])
      {
        if !cache[i].isActive {
          cache[i] := cache[i].(isActive := true);
          return i;
        }
        if cache[i].createdCount < lowest {
          oldest, lowest := i, cache[i].createdCount;
        }
      }
      k := oldest;
    }

    /**
     * Makes the slot it evicts current, holding the block at `offset`; false at the end of the file.
     * Past the end the size wraps around, and the slot claims a block that is not in the mapping.
     */
    method FillNewCache(offset: nat) returns (ok: bool)
      requires Shape() && offset <= 0x8000_0000_0000_0000
      modifies this, cache
      ensures Shape() && ok == (offset != |data|)
      ensures var k := Victim(old(cache[..]));
        && (forall i :: 0 <= i < NUM_CACHE && i != k ==> cache[i] == old(cache[i]))
        && (ok ==> curr == k && cache[k] == Slot(offset, true, 0, offset,
             if offset <= |data| then Chunk(offset) else BUFFER_SIZE, cacheCount))
        && (!ok ==> curr == old(curr) && cache[k] == old(cache[k]).(isActive := false, strBuf := offset))
      ensures old(SlotsOk()) && offset <= |data| ==> SlotsOk()
      ensures Offsets() <= old(Offsets()) + {offset}
      ensures ok && old(SlotsOk()) && offset < |data| ==>
        Valid() && Ready() && Left() == Chunk(offset) && At() == offset
      ensures !ok ==> At() == old(At()) && (old(Valid()) && (curr == -1 || At() == |data|) ==> Valid())
    {
      var k := GetFreeCache();
      var charsRead := if ToSize(|data| - offset) < BUFFER_SIZE then ToSize(|data| - offset) else BUFFER_SIZE;
      cache[k] := cache[k].(strBuf := offset);
      if charsRead == 0 {
        cache[k] := cache[k].(isActive := false);
        return false;
      }
      cache[k] := cache[k].(buffSize := charsRead, pos := 0, offset := offset, isActive := true);
      cacheCount := cacheCount + 1;
      cache[k] := cache[k].(createdCount := cacheCount);
      curr := k;
      return true;
    }

    /** Makes the first slot that holds `offset` current. */
    method FindCacheOffset(offset: nat) returns (found: bool)
      requires Shape()
      modifies this`curr
      ensures Shape() && found == (exists i :: 0 <= i < NUM_CACHE && Holds(cache[i], offset))
      ensures if found then curr != -1 && Holds(cache[curr], offset) else curr == old(curr)
      ensures found ==> forall j :: 0 <= j < curr ==> !Holds(cache[j], offset)
    {
      for i := 0 to NUM_CACHE
        invariant forall j :: 0 <= j < i ==> !Holds(cache[j], offset)
        invariant curr == old(curr)
      {
        if cache[i].isActive && cache[i].offset <= offset && offset < cache[i].offset + cache[i].buffSize {
          assert Holds(cache[i], offset);
          curr := i;
          return true;
        }
      }
      found := false;
    }

    /** Whether the current slot has bytes left. */
    ghost predicate Ready()
      requires Shape()
      reads this, cache
    {
      curr != -1 && cache[curr].pos < cache[curr].buffSize
    }

    /** The size of the block at offset p. */
    ghost function Chunk(p: nat): nat
      requires p <= |data|
    {
      if |data| - p < BUFFER_SIZE then |data| - p else BUFFER_SIZE
    }

    ghost function Left(): nat
      requires Shape()
      reads this, cache
    {
      if Ready() then cache[curr].buffSize - cache[curr].pos else 0
    }

    /** The bytes a read finds in the first slot it uses. */
    ghost function FirstChunk(): nat
      requires Valid()
      reads this, cache
    {
      if Ready() then Left() else if At() <= |data| then Chunk(At()) else 0
    }

    /** Exactly the requests that the copy loop serves. */
    ghost predicate Fits(sz: nat)
      requires Valid()
      reads this, cache
    {
      Serves(sz, FirstChunk(), |data| - At())
    }

    /** The current slot has bytes left up to the next end of a buffer, whole ones from `edge`, or of the file. */
    ghost predicate EndsAt(edge: nat)
      requires Shape()
      reads this, cache
    {
      Ready() && Left() == Min(ToEdge(edge, At()), |data| - At())
    }

    /** io61_readc: the byte at the position, which moves behind it. */
    method Readc() returns (ch: int)
      requires Valid()
      modifies this, cache
      ensures Valid() && (Char(ch), At()) == Meaning(data, old(At()), GetChar)
      decreases if Ready() then 0 else 1
    {
      if curr == -1 {
        var ok := FillNewCache(0);
        if !ok {
          return EOF;
        }
      }
      var slot := cache[curr];
      if slot.pos < slot.buffSize {
        ch := data[slot.strBuf + slot.pos];
        cache[curr] := slot.(pos := slot.pos + 1);
      } else {
        var ok := FillNewCache(slot.offset + slot.pos);
        if !ok {
          return EOF;
        }
        ch := Readc();
      }
    }

    lemma ReadyFits(sz: nat)
      requires Valid() && Ready()
      ensures Fits(sz) == Serves(sz, Left(), |data| - At())
    {}

    lemma GrewFrom(os: set<nat>, before: set<nat>, filled: set<nat>, p: nat, edge: nat, at: nat)
      requires filled <= before + {p} && Grew(os, filled, p, edge, at)
      ensures Grew(os, before + {p}, p, edge, at)
    {}

    lemma GrewNot(os: set<nat>, before: set<nat>, p: nat, edge: nat)
      requires os <= before
      ensures Grew(os, before, p, edge, p)
    {}

    lemma ReadyFacts()
      requires Valid() && Ready()
      ensures Shape() && curr != -1 && cache[curr].isActive && At() + Left() <= |data| && FirstChunk() == Left()
      ensures 0 < Left() == cache[curr].buffSize - cache[curr].pos <= BUFFER_SIZE && EndsAt(At() + Left())
      ensures cache[curr].offset in Offsets() && cache[curr].offset <= At()
      ensures At() + Left() == Min(cache[curr].offset + BUFFER_SIZE, |data|)
    {}

    /** memcpy of n bytes from the current slot to buf[at..], moving the slot's pos. */
    method Deliver(buf: array<Byte>, at: nat, n: nat)
      requires Valid() && curr != -1 && cache[curr].isActive && n <= cache[curr].buffSize - cache[curr].pos
      requires at + n <= buf.Length
      modifies this`cacheCount, cache, buf
      ensures Valid() && curr == old(curr) && cacheCount == old(cacheCount)
      ensures cache[curr] == old(cache[curr]).(pos := old(cache[curr]).pos + n) && Offsets() <= old(Offsets())
      ensures At() == old(At()) + n <= |data|
      ensures forall k :: at <= k < at + n ==> buf[k] == data[old(At()) + k - at]
      ensures forall k :: 0 <= k < at || at + n <= k < buf.Length ==> buf[k] == old(buf[k])
    {
      var slot := cache[curr];
      forall k | 0 <= k < n {
        buf[at + k] := data[slot.strBuf + slot.pos + k];
      }
      cache[curr] := slot.(pos := slot.pos + n);
      OffsetsFrom(old(cache[..]), cache[..], {});
    }

    /**
     * io61_read: the bytes at the position, in buf; nothing else of buf changes. ok is false when the
     * copy loop would copy past the end of the request, and the read stops before it does.
     */
    method Read(buf: array<Byte>, sz: nat) returns (ok: bool, nread: nat)
      requires Valid() && sz <= buf.Length && sz <= SIZE_MAX
      modifies this, cache, buf
      ensures Valid() && nread <= sz && ok == old(Fits(sz))
      ensures ok ==> (Block(buf[..nread]), At()) == Meaning(data, old(At()), GetBlock(sz))
      ensures forall k :: nread <= k < buf.Length ==> buf[k] == old(buf[k])
      ensures ok && At() < |data| ==> EndsAt(old(At() + FirstChunk()))
      ensures old(Ready()) ==> Grew(Offsets(), old(Offsets()), old(At()), old(At() + FirstChunk()), At())
      ensures !old(Ready()) ==> Grew(Offsets(), old(Offsets() + {At()}), old(At()), old(At() + FirstChunk()), At())
      decreases if Ready() then 0 else 1
    {
      hide Loop, Grew, EndsAt;
      ghost var p, before := At(), Offsets();
      if curr == -1 {
        var filled := FillNewCache(0);
        if !filled {
          GrewNot(Offsets(), before + {p}, p, p);
          return true, 0;
        }
      }
      var slot := cache[curr];
      if slot.pos < slot.buffSize {
        ghost var loaded, edge := Offsets(), At() + Left();
        ok, nread := ReadLoop(buf, sz);
        GrewFrom(Offsets(), before, loaded, p, edge, At());
        if ok {
          SliceIs(data, p, sz, nread);
          assert buf[..nread] == data[p..p + nread];
        }
      } else {
        var filled := FillNewCache(slot.offset + slot.pos);
        ghost var loaded, edge := Offsets(), At() + FirstChunk();
        if !filled {
          GrewNot(loaded, before + {p}, p, p);
          return true, 0;
        }
        ok, nread := Read(buf, sz);
        GrewFrom(Offsets(), before, loaded, p, edge, At());
      }
    }

    /**
     * One turn of the copy loop: what is left in the slot, up to `total`, then the next slot if
     * this one is used up.
     */
    method CopyTurn(buf: array<Byte>, at: nat, total: nat, ghost before: set<nat>, ghost p: nat, ghost edge: nat)
      returns (n: nat, more: bool)
      requires Valid() && Ready() && at + Min(Left(), total) <= buf.Length
      requires p <= At() && EndsAt(edge) && Grew(Offsets(), before, p, edge, At())
      modifies this, cache, buf
      ensures Valid() && Shape() && n == Min(old(Left()), total)
      ensures At() == old(At()) + n <= |data| && more == (n < old(Left()) || At() < |data|)
      ensures more ==> Ready() && Left() == if n == old(Left()) then Chunk(At()) else old(Left()) - n
      ensures Grew(Offsets(), before, p, edge, At()) && (At() < |data| ==> EndsAt(edge))
      ensures forall k :: at <= k < at + n ==> buf[k] == data[old(At()) + k - at]
      ensures forall k :: 0 <= k < at || at + n <= k < buf.Length ==> buf[k] == old(buf[k])
    {
      hide SlotsOk, ToEdge;
      ReadyFacts();
      EdgeNears(edge, At(), Left(), |data|, Min(Left(), total));
      var left := cache[curr].buffSize - cache[curr].pos;
      if left < total {
        Deliver(buf, at, left);
        n := left;
      } else {
        Deliver(buf, at, total);
        n := total;
      }
      more := true;
      if cache[curr].pos == cache[curr].buffSize {
        more := FillNewCache(cache[curr].offset + cache[curr].pos);
      }
    }

    /** The copy loop of io61_read follows CopyLoop.Loop, up to the turn that would copy past the request. */
    method ReadLoop(buf: array<Byte>, sz: nat) returns (ok: bool, nread: nat)
      requires Valid() && Shape() && Ready() && sz <= buf.Length && sz <= SIZE_MAX
      modifies this, cache, buf
      ensures Valid() && At() == old(At()) + nread <= |data| && nread <= sz && ok == old(Fits(sz))
      ensures var ending := Loop(sz, 0, sz, old(Left()), |data| - old(At()));
        ok == ending.Served? && nread == Copied(ending)
      ensures ok ==> nread == Min(sz, |data| - old(At()))
      ensures forall k :: 0 <= k < nread ==> buf[k] == data[old(At()) + k]
      ensures forall k :: nread <= k < buf.Length ==> buf[k] == old(buf[k])
      ensures At() < |data| ==> EndsAt(old(At() + Left()))
      ensures Grew(Offsets(), old(Offsets()), old(At()), old(At() + Left()), At())
    {
      hide Valid, Ready, Left, At, Loop, Remaining, Offsets, EndsAt, Grew, Fits, Serves;
      GrewNot(Offsets(), Offsets(), At(), At() + Left());
      nread := 0;
      ghost var p, first := At(), Left();
      ReadyFacts();
      ghost var size := |data| - p;
      ServedExactly(sz, first, size);
      ReadyFits(sz);
      ghost var ending := Loop(sz, 0, sz, first, size);
      var total: nat := sz;
      if sz == 0 {
        Finished(sz, total, first, size);
      }
      while nread != sz
        invariant Valid() && Shape() && nread <= sz && At() == p + nread <= |data| && total <= SIZE_MAX
        invariant nread != sz ==> Ready() && 0 < Left() <= |data| - At() && (nread == 0 ==> total == sz)
        invariant if nread == sz then ending == Served(sz) else Loop(sz, nread, total, Left(), |data| - At()) == ending
        invariant forall k :: 0 <= k < nread ==> buf[k] == data[p + k]
        invariant forall k :: nread <= k < buf.Length ==> buf[k] == old(buf[k])
        invariant At() < |data| ==> EndsAt(p + first)
        invariant Grew(Offsets(), old(Offsets()), p, p + first, At())
        decreases |data| - At(), if total == 0 then 0 else 1
      {
        ReadyFacts();
        Turn(sz, nread, total, Left(), |data| - At());
        TurnMoves(sz, nread, total, Left());
        total := Remaining(total, nread);
        if nread + Min(cache[curr].buffSize - cache[curr].pos, total) > sz {
          return false, nread;
        }
        var n, more := CopyTurn(buf, nread, total, old(Offsets()), p, p + first);
        nread := nread + n;
        if !more {
          break;
        }
        ReadyFacts();
        if nread == sz {
          Finished(sz, total, Left(), |data| - At());
        }
      }
      ok := true;
    }

    /**
     * The first part of io61_seek, for files read backwards: the block that ends behind pos is loaded
     * when the position was two behind pos.
     */
    method LookBack(pos: nat) returns (go: bool)
      requires Valid() && pos < 0x8000_0000_0000_0000
      modifies this, cache
      ensures go && Shape() && (pos <= |data| ==> Valid())
      ensures pos <= |data| && (old(curr) == -1 || pos + 2 != old(At())) ==>
        curr == old(curr) && cache[..] == old(cache[..])
    {
      if curr != -1 {
        IntOfSize(pos - (cache[curr].offset + cache[curr].pos - 1));
        var posDiff := ToInt(ToSize(pos - (cache[curr].offset + cache[curr].pos - 1)));
        if posDiff == -1 {
          var found := FindCacheOffset(ToSize(pos + posDiff));
          if !found {
            go := FillNewCache(if pos < BUFFER_SIZE then 0 else pos - BUFFER_SIZE + 1);
            if !go {
              return;
            }
          }
        }
      }
      go := true;
    }

    /** The second part: the block that holds pos is current, or one from pos on is loaded. */
    method LookUp(pos: nat) returns (go: bool)
      requires Shape() && (pos <= |data| ==> Valid()) && pos < 0x8000_0000_0000_0000
      modifies this, cache
      ensures Shape() && go == (pos != |data|) && Offsets() <= old(Offsets()) + {pos}
      ensures pos != |data| ==> curr != -1 && Holds(cache[curr], pos)
      ensures pos < |data| ==> Valid()
      ensures pos == |data| ==> At() == old(At()) && curr == old(curr)
      ensures pos == |data| ==> (Valid() <==>
        old(curr) == -1 || old(At()) == |data| || Victim(old(cache[..])) != old(curr))
    {
      var found := FindCacheOffset(pos);
      go := true;
      if !found {
        go := FillNewCache(pos);
      }
    }

    /**
     * io61_seek. Before the end of the file the position moves. At the end it stays, and the slot that
     * the failed refill takes loses its data: the reader is broken if that is the current slot with
     * bytes left. Past the end the reader is left with a slot outside the file.
     */
    method Seek(pos: nat) returns (r: int)
      requires Valid() && pos < 0x8000_0000_0000_0000
      modifies this, cache
      ensures r == 0 && Shape()
      ensures pos < |data| ==> Valid() && At() == pos && Ready()
      ensures pos < |data| && (old(curr) == -1 || pos + 2 != old(At())) ==> Offsets() <= old(Offsets()) + {pos}
      ensures pos == |data| ==> At() == old(At()) && curr == old(curr)
      ensures pos == |data| ==> (Valid() <==>
        old(curr) == -1 || old(At()) == |data| || Victim(old(cache[..])) != old(curr))
      ensures pos > |data| ==> At() == pos && !Valid()
    {
      var go := LookBack(pos);
      if go {
        go := LookUp(pos);
      }
      if !go {
        return 0;
      }
      ghost var slots := cache[..];
      cache[curr] := cache[curr].(pos := pos - cache[curr].offset);
      OffsetsFrom(slots, cache[..], {});
      r := 0;
    }
  }

  // ---------------------------------------------------------------- the unbuffered reader

  /** A file of slow-io61.c; fd is the position the system keeps for the descriptor. */
  class SlowReader {
    const data: seq<Byte>
    var fd: nat

    constructor (data: seq<Byte>)
      ensures this.data == data && fd == 0
    {
      this.data := data;
      fd := 0;
    }

    method Readc() returns (ch: int)
      modifies this
      ensures (Char(ch), fd) == Meaning(data, old(fd), GetChar)
    {
      if fd < |data| {
        ch := data[fd];
        fd := fd + 1;
      } else {
        ch := EOF;
      }
    }

    /** Byte by byte; at end of file io61_eof holds, so the result is 0 rather than -1. */
    method Read(buf: array<Byte>, sz: nat) returns (n: int)
      requires sz <= buf.Length
      modifies this, buf
      ensures 0 <= n <= sz && (Block(buf[..n]), fd) == Meaning(data, old(fd), GetBlock(sz))
      ensures buf[n..] == old(buf[n..])
    {
      var nread: nat := 0;
      while nread != sz
        invariant nread <= sz && fd == old(fd) + nread && (nread > 0 ==> fd <= |data|)
        invariant nread > 0 ==> buf[..nread] == data[old(fd)..fd]
        invariant buf[nread..] == old(buf[nread..])
      {
        var ch := Readc();
        if ch == EOF {
          break;
        }
        buf[nread] := ch;
        assert buf[..nread + 1] == buf[..nread] + [ch];
        nread := nread + 1;
      }
      if old(fd) <= |data| {
        SliceIs(data, old(fd), sz, nread);
      }
      if nread != 0 || sz == 0 || fd >= |data| {
        n := nread;
      } else {
        n := -1;
      }
    }

    method Seek(pos: nat) returns (r: int)
      modifies this
      ensures (Sought(r), fd) == Meaning(data, old(fd), SeekTo(pos))
    {
      fd := pos;
      r := 0;
    }
  }

  // ---------------------------------------------------------------- refinement

  /**
   * What the cached reader promises to get right: requests of one buffer or up to the end of the
   * file, seeks before the end of the file.
   */
  predicate Promised(data: seq<Byte>, p: nat, op: Op) {
    match op
    case GetChar => true
    case GetBlock(sz) => sz <= BUFFER_SIZE || (|data| - p <= sz && sz <= SIZE_MAX)
    case SeekTo(pos) => pos < |data| || pos == p == |data|
  }

  predicate AllPromised(data: seq<Byte>, p: nat, ops: seq<Op>)
    decreases |ops|
  {
    ops == [] || (Promised(data, p, ops[0]) && AllPromised(data, Meaning(data, p, ops[0]).1, ops[1..]))
  }

  lemma {:induction false} PromisedAt(data: seq<Byte>, p: nat, ops: seq<Op>, k: nat)
    requires AllPromised(data, p, ops) && k < |ops|
    ensures Promised(data, Position(data, p, ops[..k]), ops[k])
    decreases k
  {
    if k > 0 {
      assert ops[..k][1..] == ops[1..][..k - 1];
      PromisedAt(data, Meaning(data, p, ops[0]).1, ops[1..], k - 1);
    }
  }

  method FastStep(f: Reader, op: Op) returns (o: Outcome)
    requires f.Valid() && Promised(f.data, f.At(), op)
    modifies f, f.cache
    ensures f.Valid() && (o, f.At()) == Meaning(f.data, old(f.At()), op)
  {
    match op
    case GetChar =>
      var ch := f.Readc();
      o := Char(ch);
    case GetBlock(sz) =>
      var buf := new Byte[sz](i => 0);
      var ok, n := f.Read(buf, sz);
      o := Block(buf[..n]);
    case SeekTo(pos) =>
      var r := f.Seek(pos);
      o := Sought(r);
  }

  method SlowStep(f: SlowReader, op: Op) returns (o: Outcome)
    modifies f
    ensures (o, f.fd) == Meaning(f.data, old(f.fd), op)
  {
    match op
    case GetChar =>
      var ch := f.Readc();
      o := Char(ch);
    case GetBlock(sz) =>
      var buf := new Byte[sz](i => 0);
      var n := f.Read(buf, sz);
      o := Block(buf[..n]);
    case SeekTo(pos) =>
      var r := f.Seek(pos);
      o := Sought(r);
  }

  /**
   * Cache refinement: on a file opened for reading, any sequence of reads of up to one buffer and
   * seeks within the file returns from the cached reader exactly what the unbuffered one returns.
   */
  method ReadersAgree(data: seq<Byte>, ops: seq<Op>) returns (fast: seq<Outcome>, slow: seq<Outcome>)
    requires |data| <= INT_MAX && AllPromised(data, 0, ops)
    ensures fast == slow == Outcomes(data, 0, ops)
  {
    hide Meaning;
    var f := new Reader(data);
    var g := new SlowReader(data);
    fast, slow := [], [];
    for k := 0 to |ops|
      invariant f.Valid() && f.data == g.data == data && fresh(f) && fresh(f.cache) && fresh(g)
      invariant f.At() == g.fd == Position(data, 0, ops[..k])
      invariant fast == slow == Outcomes(data, 0, ops[..k])
    {
      PromisedAt(data, 0, ops, k);
      OutcomesAppend(data, 0, ops[..k], ops[k]);
      assert ops[..k + 1] == ops[..k] + [ops[k]];
      var o := FastStep(f, ops[k]);
      var q := SlowStep(g, ops[k]);
      fast, slow := fast + [o], slow + [q];
    }
    assert ops[..|ops|] == ops;
  }

  /** Seeking to the end of a file that was just opened leaves the cached reader at its start. */
  method SeekToEndDiffers(data: seq<Byte>) returns (fast: int, slow: int)
    requires 0 < |data| <= INT_MAX
    ensures fast == data[0] && slow == EOF
  {
    var f := new Reader(data);
    var g := new SlowReader(data);
    var r := f.Seek(|data|);
    fast := f.Readc();
    r := g.Seek(|data|);
    slow := g.Readc();
  }

  lemma SliceIs(data: seq<Byte>, p: nat, sz: nat, n: nat)
    requires n <= sz && p + n <= |data| && (n == sz || p + n == |data|)
    ensures Slice(data, p, sz) == data[p..p + n]
  {}
}
