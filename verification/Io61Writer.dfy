/**
 * Buffered output: a file of pset3/io61.c opened for writing, which collects bytes in slot 0 of its
 * cache, beside the unbuffered one of pset3/slow-io61.c. io61_seek moves the descriptor before it
 * writes the bytes collected, so the two leave the same file only as long as no seek finds any.
 */
module Io61Writer {
  import opened Common
  import opened CopyLoop
  import opened Io61

  // ---------------------------------------------------------------- files and positions

  /** A file after a write at a position; a gap reads as zeros. */
  function WriteAt(file: seq<Byte>, pos: nat, bytes: seq<Byte>): (r: seq<Byte>)
    ensures |r| >= |file|
    ensures bytes != [] ==> |r| >= pos + |bytes|
    ensures forall i :: 0 <= i < |bytes| ==> r[pos + i] == bytes[i]
    ensures forall i :: 0 <= i < |file| && !(pos <= i < pos + |bytes|) ==> r[i] == file[i]
  {
    if bytes == [] then file
    else
      var padded := if |file| < pos then file + seq(pos - |file|, i => 0) else file;
      padded[..pos] + bytes + if pos + |bytes| <= |padded| then padded[pos + |bytes|..] else []
  }

  /** The byte at i, and how long the file is. */
  lemma WriteIs(file: seq<Byte>, pos: nat, bytes: seq<Byte>)
    ensures var r := WriteAt(file, pos, bytes);
      && |r| == (if bytes == [] || pos + |bytes| <= |file| then |file| else pos + |bytes|)
      && forall i :: 0 <= i < |r| ==>
           r[i] == if pos <= i < pos + |bytes| then bytes[i - pos] else if i < |file| then file[i] else 0
  {
    var r := WriteAt(file, pos, bytes);
    forall i | 0 <= i < |r|
      ensures r[i] == if pos <= i < pos + |bytes| then bytes[i - pos] else if i < |file| then file[i] else 0
    {
      if pos <= i < pos + |bytes| {
        assert r[pos + (i - pos)] == bytes[i - pos];
      }
    }
  }

  /** One write after the other, right behind it, is one write. */
  lemma WriteAppend(file: seq<Byte>, pos: nat, a: seq<Byte>, b: seq<Byte>)
    ensures WriteAt(WriteAt(file, pos, a), pos + |a|, b) == WriteAt(file, pos, a + b)
  {
    hide WriteAt;
    var one := WriteAt(file, pos, a);
    WriteIs(file, pos, a);
    WriteIs(one, pos + |a|, b);
    WriteIs(file, pos, a + b);
    var x, y := WriteAt(one, pos + |a|, b), WriteAt(file, pos, a + b);
    assert |x| == |y|;
    forall i | 0 <= i < |x| ensures x[i] == y[i] {
      if i < |one| {}
    }
  }

  /** An unbuffered file: its contents, and the position the system keeps for the descriptor. */
  datatype Plain = Plain(file: seq<Byte>, fd: nat)

  function Put(p: Plain, bytes: seq<Byte>): Plain { Plain(WriteAt(p.file, p.fd, bytes), p.fd + |bytes|) }

  /** A buffered file: what write() has made of the file, the descriptor's position, and the bytes collected. */
  datatype Cached = Cached(file: seq<Byte>, fd: nat, buf: seq<Byte>)

  /** What closing a buffered file now leaves, and where a byte written next would end up. */
  function Close(s: Cached): Plain { Put(Plain(s.file, s.fd), s.buf) }

  function Flushed(s: Cached): Cached { Cached(Close(s).file, Close(s).fd, []) }

  /** A full buffer is written out. */
  function Emptied(s: Cached): Cached { if |s.buf| == BUFFER_SIZE then Flushed(s) else s }

  function PutByte(s: Cached, b: Byte): Cached { Emptied(s).(buf := Emptied(s).buf + [b]) }

  function PutBytes(s: Cached, bytes: seq<Byte>): Cached
    decreases |bytes|
  {
    if bytes == [] then s else PutByte(PutBytes(s, bytes[..|bytes| - 1]), bytes[|bytes| - 1])
  }

  lemma {:induction false} PutAppend(s: Cached, a: seq<Byte>, b: seq<Byte>)
    ensures PutBytes(s, a + b) == PutBytes(PutBytes(s, a), b)
    decreases |b|
  {
    if b == [] {
      assert a + b == a;
    } else {
      var init := b[..|b| - 1];
      assert (a + b)[..|a + b| - 1] == a + init;
      PutAppend(s, a, init);
    }
  }

  /** Bytes for which there is room are collected. */
  lemma {:induction false} PutFits(s: Cached, bytes: seq<Byte>)
    requires |s.buf| + |bytes| <= BUFFER_SIZE
    ensures PutBytes(s, bytes) == s.(buf := s.buf + bytes)
    decreases |bytes|
  {
    if bytes != [] {
      var init, last := bytes[..|bytes| - 1], bytes[|bytes| - 1];
      PutFits(s, init);
      assert s.buf + init + [last] == s.buf + bytes by {
        assert init + [last] == bytes;
      }
    } else {
      assert s.buf + bytes == s.buf;
    }
  }

  /** Writing out a full buffer early makes no difference to the bytes that follow. */
  lemma {:induction false} EmptiedFirst(s: Cached, bytes: seq<Byte>)
    requires |s.buf| <= BUFFER_SIZE
    ensures Emptied(PutBytes(Emptied(s), bytes)) == Emptied(PutBytes(s, bytes))
    ensures bytes != [] ==> PutBytes(Emptied(s), bytes) == PutBytes(s, bytes)
    decreases |bytes|
  {
    if |bytes| > 1 {
      EmptiedFirst(s, bytes[..|bytes| - 1]);
    } else if |bytes| == 1 {
      assert PutBytes(Emptied(s), bytes[..0]) == Emptied(s) && PutBytes(s, bytes[..0]) == s;
    }
  }

  lemma EmptiedCloses(s: Cached)
    ensures Close(Emptied(s)) == Close(s) && Close(Flushed(s)) == Close(s)
  {}

  /** Collected or not, bytes go behind what was written before. */
  lemma {:induction false} PutCloses(s: Cached, bytes: seq<Byte>)
    requires |s.buf| <= BUFFER_SIZE
    ensures Close(PutBytes(s, bytes)) == Put(Close(s), bytes)
    ensures |PutBytes(s, bytes).buf| == if bytes == [] then |s.buf| else (|s.buf| + |bytes| - 1) % BUFFER_SIZE + 1
    decreases |bytes|
  {
    hide Close, Put;
    if bytes == [] {
      PutNothing(Close(s));
    } else {
      var init, last := bytes[..|bytes| - 1], bytes[|bytes| - 1];
      PutCloses(s, init);
      var u := PutBytes(s, init);
      EmptiedCloses(u);
      PutOne(Emptied(u), last);
      PutPut(Close(s), init, [last]);
      assert init + [last] == bytes;
    }
  }

  lemma PutNothing(p: Plain)
    ensures Put(p, []) == p
  {}

  lemma PutPut(p: Plain, a: seq<Byte>, b: seq<Byte>)
    ensures Put(Put(p, a), b) == Put(p, a + b)
  {
    WriteAppend(p.file, p.fd, a, b);
  }

  lemma PutOne(s: Cached, b: Byte)
    ensures Close(s.(buf := s.buf + [b])) == Put(Close(s), [b])
  {
    WriteAppend(s.file, s.fd, s.buf, [b]);
  }

  /** With c bytes collected, the copy loop serves a write of sz bytes; a full buffer is written out first. */
  predicate Accepts(c: nat, sz: nat) { Serves(sz, if c == BUFFER_SIZE then BUFFER_SIZE else BUFFER_SIZE - c, sz + 1) }

  // ---------------------------------------------------------------- the buffered writer

  /** What a cache_slot of a file being written uses besides its buffer. */
  datatype WriteSlot = WriteSlot(isActive: bool, pos: nat, buffSize: nat)

  /** An io61_file opened O_WRONLY on a regular file. */
  class Writer {
    var file: seq<Byte>
    var fd: nat
    const cache: array<WriteSlot>
    const buffers: seq<array<Byte>>  // the arr_buf of each slot
    var curr: int

    /** Only slot 0 is ever used. */
    ghost predicate Valid()
      reads this, cache
    {
      && cache.Length == |buffers| == NUM_CACHE
      && (forall i :: 0 <= i < NUM_CACHE ==> buffers[i].Length == BUFFER_SIZE)
      && (curr == -1 || (curr == 0 && cache[0].buffSize == BUFFER_SIZE)) && cache[0].pos <= BUFFER_SIZE
      && (forall i :: 1 <= i < NUM_CACHE ==> cache[i].pos == 0) && (curr == -1 ==> cache[0].pos == 0)
    }

    ghost function State(): (s: Cached)
      requires Valid()
      reads this, cache, buffers
      ensures |s.buf| == cache[0].pos
    {
      Cached(file, fd, buffers[0][..cache[0].pos])
    }

    /** The free bytes of the buffer of slot 0. */
    ghost function Room(): (r: nat)
      requires Valid()
      reads this, cache
      ensures r <= BUFFER_SIZE
    {
      BUFFER_SIZE - cache[0].pos
    }

    /** io61_fdopen of a file with these contents, at its start. */
    constructor (file: seq<Byte>)
      ensures Valid() && State() == Cached(file, 0, []) && fresh(cache) && fresh(buffers[0])
    {
      var first := new Byte[BUFFER_SIZE](i => 0);
      var other := new Byte[BUFFER_SIZE](i => 0);
      this.file, fd := file, 0;
      cache := new WriteSlot[NUM_CACHE](i => WriteSlot(false, 0, 0));
      buffers := [first] + seq(NUM_CACHE - 1, i => other);
      curr := -1;
    }

    /** io61_flush: the bytes collected are written at the descriptor's position. */
    method Flush() returns (r: int)
      requires Valid()
      modifies this`file, this`fd, cache
      ensures r == 0 && Valid() && State() == Flushed(old(State())) && curr == old(curr)
    {
      for i := 0 to NUM_CACHE
        invariant Valid() && State() == if i == 0 then old(State()) else Flushed(old(State()))
      {
        if cache[i].pos > 0 {
          file := WriteAt(file, fd, buffers[i][..cache[i].pos]);
          fd := fd + cache[i].pos;
          cache[i] := cache[i].(pos := 0);
        }
      }
      r := 0;
    }

    /** io61_seek: the bytes collected are written at the new position, and the next ones go behind them. */
    method Seek(pos: nat) returns (r: int)
      requires Valid()
      modifies this`file, this`fd, cache
      ensures r == 0 && Valid() && State() == Flushed(old(State()).(fd := pos)) && curr == old(curr)
    {
      fd := pos;
      r := Flush();
    }

    /** Slot 0 becomes current on the first write. */
    method UseFirstSlot()
      requires Valid()
      modifies this`curr, cache
      ensures Valid() && curr == 0 && State() == old(State())
    {
      if curr == -1 {
        curr := 0;
        cache[0] := WriteSlot(true, 0, BUFFER_SIZE);
      }
    }

    /**
     * io61_writec: the character, converted to unsigned char, is collected, behind a full buffer
     * that is written out.
     */
    method Writec(ch: int) returns (r: int)
      requires Valid()
      modifies this, cache, buffers[0]
      ensures r == 0 && Valid() && State() == PutByte(old(State()), ToByte(ch))
      decreases cache[0].pos
    {
      UseFirstSlot();
      if cache[curr].pos < cache[curr].buffSize {
        ghost var s := State();
        buffers[curr][cache[curr].pos] := ToByte(ch);
        cache[curr] := cache[curr].(pos := cache[curr].pos + 1);
        assert State().buf == s.buf + [ToByte(ch)];
        r := 0;
      } else {
        r := Flush();
        r := Writec(ch);
      }
    }

    /** memcpy of buf[at..at + n] to the current slot. */
    method Fill(buf: seq<Byte>, at: nat, n: nat)
      requires Valid() && curr == 0 && n <= BUFFER_SIZE - cache[0].pos && at + n <= |buf|
      modifies cache, buffers[0]
      ensures Valid() && cache[0].pos == old(cache[0].pos) + n
      ensures State() == old(State()).(buf := old(State()).buf + buf[at..at + n])
    {
      var pos := cache[0].pos;
      forall k | 0 <= k < n {
        buffers[0][pos + k] := buf[at + k];
      }
      cache[0] := cache[0].(pos := pos + n);
    }

    /**
     * io61_write: all of buf is collected, and written out whenever the buffer is full. ok is false when
     * the copy loop would copy past the end of buf, and the write stops before it does.
     */
    method Write(buf: seq<Byte>) returns (ok: bool, n: nat)
      requires Valid() && |buf| <= INT_MAX
      modifies this, cache, buffers[0]
      ensures Valid() && ok == Accepts(old(cache[0].pos), |buf|) && n <= |buf| && (ok ==> n == |buf|)
      ensures State() == Emptied(PutBytes(old(State()), buf[..n]))
      decreases cache[0].pos
    {
      UseFirstSlot();
      if cache[curr].pos < cache[curr].buffSize {
        ok, n := WriteLoop(buf);
      } else {
        ghost var s := State();
        var r := Flush();
        ok, n := Write(buf);
        EmptiedFirst(s, buf[..n]);
      }
    }

    /** One turn of io61_write's loop: what fits in the buffer, up to `total`, and a flush if that fills it. */
    method WriteTurn(buf: seq<Byte>, at: nat, total: nat) returns (n: nat)
      requires Valid() && curr == 0 && Room() > 0 && at + Min(Room(), total) <= |buf|
      modifies this, cache, buffers[0]
      ensures Valid() && curr == 0 && n == Min(old(Room()), total)
      ensures State() == Emptied(PutBytes(old(State()), buf[at..at + n]))
      ensures Room() == if n == old(Room()) then BUFFER_SIZE else old(Room()) - n
    {
      hide PutBytes, Close, Put;
      var left := cache[curr].buffSize - cache[curr].pos;
      PutFits(State(), buf[at..at + Min(left, total)]);
      if left < total {
        Fill(buf, at, left);
        n := left;
      } else {
        Fill(buf, at, total);
        n := total;
      }
      if cache[curr].pos == cache[curr].buffSize {
        var r := Flush();
      }
    }

    lemma WriteEnds(sz: nat)
      requires Valid() && Room() > 0 && sz <= INT_MAX
      ensures var ending := Loop(sz, 0, sz, Room(), sz + BUFFER_SIZE);
        ending.Served? == Accepts(cache[0].pos, sz) && (ending.Served? ==> ending.n == sz)
    {
      ServedExactly(sz, Room(), sz + BUFFER_SIZE);
    }

    lemma NotFull()
      requires Valid() && Room() > 0
      ensures Emptied(State()) == State() && PutBytes(State(), []) == State() && |State().buf| <= BUFFER_SIZE
    {}

    /**
     * The loop of io61_write follows CopyLoop.Loop, with a file that does not end, up to the turn that
     * would copy past the end of buf.
     */
    method WriteLoop(buf: seq<Byte>) returns (ok: bool, nwritten: nat)
      requires Valid() && curr == 0 && Room() > 0 && |buf| <= INT_MAX
      modifies this, cache, buffers[0]
      ensures Valid() && curr == 0 && ok == Accepts(old(cache[0].pos), |buf|) && nwritten <= |buf|
      ensures ok ==> nwritten == |buf|
      ensures State() == Emptied(PutBytes(old(State()), buf[..nwritten]))
      ensures var ending := Loop(|buf|, 0, |buf|, old(Room()), |buf| + BUFFER_SIZE);
        ok == ending.Served? && nwritten == Copied(ending)
    {
      hide Valid, State, Room, Loop, Remaining, Emptied, PutBytes, Accepts;
      nwritten := 0;
      var sz: nat, total: nat := |buf|, |buf|;
      ghost var start, size := State(), |buf| + BUFFER_SIZE;
      ghost var ending := Loop(sz, 0, sz, Room(), size);
      WriteEnds(sz);
      NotFull();
      assert buf[..0] == [];
      if sz == 0 {
        Finished(sz, total, Room(), size);
      }
      while nwritten != sz
        invariant nwritten <= sz == |buf| && Valid() && curr == 0 && 0 < Room() <= size - nwritten && total <= SIZE_MAX
        invariant (nwritten == 0 ==> total == sz)
        invariant Loop(sz, nwritten, total, Room(), size - nwritten) == ending
        invariant State() == Emptied(PutBytes(start, buf[..nwritten])) && |start.buf| <= BUFFER_SIZE
        decreases size - nwritten, if total == 0 then 0 else 1
      {
        Turn(sz, nwritten, total, Room(), size - nwritten);
        TurnMoves(sz, nwritten, total, Room());
        RoomIs();
        total := Remaining(total, nwritten);
        if nwritten + Min(cache[curr].buffSize - cache[curr].pos, total) > sz {
          return false, nwritten;
        }
        var n := WriteTurn(buf, nwritten, total);
        WrittenOn(start, buf, nwritten, n);
        nwritten := nwritten + n;
      }
      Finished(sz, total, Room(), size - nwritten);
      ok := true;
    }

    lemma RoomIs()
      requires Valid() && curr == 0
      ensures Room() == cache[curr].buffSize - cache[curr].pos && cache.Length == NUM_CACHE
    {}
  }

  lemma WrittenOn(s: Cached, buf: seq<Byte>, m: nat, n: nat)
    requires m + n <= |buf| && |s.buf| <= BUFFER_SIZE
    ensures Emptied(PutBytes(Emptied(PutBytes(s, buf[..m])), buf[m..m + n])) == Emptied(PutBytes(s, buf[..m + n]))
  {
    hide PutBytes, Emptied;
    PutCloses(s, buf[..m]);
    EmptiedFirst(PutBytes(s, buf[..m]), buf[m..m + n]);
    PutAppend(s, buf[..m], buf[m..m + n]);
    assert buf[..m] + buf[m..m + n] == buf[..m + n];
  }

  // ---------------------------------------------------------------- the unbuffered writer

  /** A file of slow-io61.c opened for writing: each byte goes to the file at once. */
  class SlowWriter {
    var file: seq<Byte>
    var fd: nat

    ghost function State(): Plain
      reads this
    {
      Plain(file, fd)
    }

    constructor (file: seq<Byte>)
      ensures State() == Plain(file, 0)
    {
      this.file, fd := file, 0;
    }

    method Writec(ch: int) returns (r: int)
      modifies this
      ensures r == 0 && State() == Put(old(State()), [ToByte(ch)])
    {
      file, fd := WriteAt(file, fd, [ToByte(ch)]), fd + 1;
      r := 0;
    }

    method Write(buf: seq<Byte>) returns (nwritten: nat)
      modifies this
      ensures nwritten == |buf| && State() == Put(old(State()), buf)
    {
      hide Put;
      nwritten := 0;
      PutNothing(State());
      assert buf[..0] == [];
      while nwritten != |buf|
        invariant nwritten <= |buf| && State() == Put(old(State()), buf[..nwritten])
      {
        PutPut(old(State()), buf[..nwritten], [buf[nwritten]]);
        assert buf[..nwritten] + [buf[nwritten]] == buf[..nwritten + 1];
        var r := Writec(buf[nwritten]);
        nwritten := nwritten + 1;
      }
      assert buf[..|buf|] == buf;
    }

    method Seek(pos: nat) returns (r: int)
      modifies this
      ensures r == 0 && State() == Plain(old(file), pos)
    {
      fd := pos;
      r := 0;
    }
  }

  // ---------------------------------------------------------------- when the two agree

  /** A buffer of up to 2 GB. */
  type Buffer = b: seq<Byte> | |b| <= INT_MAX

  datatype WriteOp = PutChar(ch: int) | PutBlock(bytes: Buffer) | FlushAll | MoveTo(pos: nat)

  /** None: the copy loop copies past the end of the buffer it is given. */
  function CachedStep(s: Cached, op: WriteOp): Option<Cached> {
    match op
    case PutChar(ch) => Some(PutByte(s, ToByte(ch)))
    case PutBlock(bytes) => if Accepts(|s.buf|, |bytes|) then Some(Emptied(PutBytes(s, bytes))) else None
    case FlushAll => Some(Flushed(s))
    case MoveTo(pos) => Some(Flushed(s.(fd := pos)))
  }

  function PlainStep(p: Plain, op: WriteOp): Plain {
    match op
    case PutChar(ch) => Put(p, [ToByte(ch)])
    case PutBlock(bytes) => Put(p, bytes)
    case FlushAll => p
    case MoveTo(pos) => Plain(p.file, pos)
  }

  /** The operations on a file with these contents, at its start. */
  function CachedRun(file: seq<Byte>, ops: seq<WriteOp>): Option<Cached> {
    if ops == [] then Some(Cached(file, 0, []))
    else
      match CachedRun(file, ops[..|ops| - 1])
      case Some(s) => CachedStep(s, ops[|ops| - 1])
      case None => None
  }

  function PlainRun(file: seq<Byte>, ops: seq<WriteOp>): Plain {
    if ops == [] then Plain(file, 0) else PlainStep(PlainRun(file, ops[..|ops| - 1]), ops[|ops| - 1])
  }

  function CollectedNext(c: nat, op: WriteOp): (r: nat)
    requires c <= BUFFER_SIZE
    ensures r <= BUFFER_SIZE
  {
    match op
    case PutChar(_) => if c == BUFFER_SIZE then 1 else c + 1
    case PutBlock(bytes) => (c + |bytes|) % BUFFER_SIZE
    case _ => 0
  }

  /** How many bytes are collected, counted from the sizes of the writes. */
  function Collected(ops: seq<WriteOp>): (c: nat)
    ensures c <= BUFFER_SIZE
  {
    if ops == [] then 0 else CollectedNext(Collected(ops[..|ops| - 1]), ops[|ops| - 1])
  }

  /** With c bytes collected, the operation is neither a seek that finds some nor a write that is not served. */
  predicate GoesWell(c: nat, op: WriteOp) {
    match op
    case PutBlock(bytes) => Accepts(c, |bytes|)
    case MoveTo(_) => c == 0
    case _ => true
  }

  /** The copy loop serves every write, and every seek comes when nothing is collected. */
  predicate AllGoWell(ops: seq<WriteOp>) {
    forall k :: 0 <= k < |ops| ==> GoesWell(Collected(ops[..k]), ops[k])
  }

  lemma {:induction false} CollectedIs(file: seq<Byte>, ops: seq<WriteOp>)
    ensures CachedRun(file, ops).Some? ==> |CachedRun(file, ops).value.buf| == Collected(ops)
  {
    hide CachedStep;
    if ops != [] && CachedRun(file, ops).Some? {
      CollectedIs(file, ops[..|ops| - 1]);
      CollectedStep(CachedRun(file, ops[..|ops| - 1]).value, ops[|ops| - 1]);
    }
  }

  lemma CollectedStep(s: Cached, op: WriteOp)
    requires |s.buf| <= BUFFER_SIZE
    ensures CachedStep(s, op).Some? ==> |CachedStep(s, op).value.buf| == CollectedNext(|s.buf|, op)
  {
    hide PutBytes, Close, Accepts;
    if op.PutBlock? {
      PutCloses(s, op.bytes);
      Wraps(|s.buf|, |op.bytes|);
    }
  }

  lemma Wraps(c: nat, n: nat)
    requires c <= BUFFER_SIZE
    ensures n > 0 ==>
      (c + n) % BUFFER_SIZE == if (c + n - 1) % BUFFER_SIZE + 1 == BUFFER_SIZE then 0 else (c + n - 1) % BUFFER_SIZE + 1
    ensures n == 0 ==> (c + n) % BUFFER_SIZE == if c == BUFFER_SIZE then 0 else c
  {}

  /**
   * A step that goes well keeps the two files alike. A seek that finds bytes collected misplaces what
   * comes next; a write that is not served fails.
   */
  lemma StepCloses(s: Cached, op: WriteOp)
    requires |s.buf| <= BUFFER_SIZE
    ensures CachedStep(s, op).None? <==> op.PutBlock? && !Accepts(|s.buf|, |op.bytes|)
    ensures GoesWell(|s.buf|, op) ==> Close(CachedStep(s, op).value) == PlainStep(Close(s), op)
    ensures op.MoveTo? && s.buf != [] ==> Close(CachedStep(s, op).value).fd == PlainStep(Close(s), op).fd + |s.buf|
  {
    hide Accepts;
    match op
    case PutChar(ch) =>
      EmptiedCloses(s);
      PutOne(Emptied(s), ToByte(ch));
    case PutBlock(bytes) =>
      PutCloses(s, bytes);
      EmptiedCloses(PutBytes(s, bytes));
    case FlushAll =>
      EmptiedCloses(s);
    case MoveTo(pos) =>
  }

  lemma Prefixes(ops: seq<WriteOp>)
    requires ops != [] && AllGoWell(ops)
    ensures AllGoWell(ops[..|ops| - 1]) && GoesWell(Collected(ops[..|ops| - 1]), ops[|ops| - 1])
  {
    hide GoesWell;
    var init := ops[..|ops| - 1];
    forall k | 0 <= k < |init| ensures GoesWell(Collected(init[..k]), init[k]) {
      assert init[..k] == ops[..k] && ops[k] == init[k];
    }
    assert ops[..|ops| - 1] == init;
  }

  lemma NothingCollected(file: seq<Byte>)
    ensures Close(Cached(file, 0, [])) == Plain(file, 0)
  {}

  lemma {:induction false} Agree(file: seq<Byte>, ops: seq<WriteOp>)
    requires AllGoWell(ops)
    ensures CachedRun(file, ops).Some? && Close(CachedRun(file, ops).value) == PlainRun(file, ops)
  {
    hide CachedStep, PlainStep, Collected, CollectedNext, Close, Accepts;
    if ops == [] {
      NothingCollected(file);
    } else {
      Prefixes(ops);
      Agree(file, ops[..|ops| - 1]);
      CollectedIs(file, ops[..|ops| - 1]);
      StepCloses(CachedRun(file, ops[..|ops| - 1]).value, ops[|ops| - 1]);
    }
  }

  /** A byte that goes to different positions of two files shows it. */
  lemma PositionShows(f: seq<Byte>, p: nat, g: seq<Byte>, q: nat) returns (ch: int)
    requires p != q
    ensures WriteAt(f, p, [ToByte(ch)]) != WriteAt(g, q, [ToByte(ch)])
  {
    var at0 := WriteAt(f, p, [0]);
    var other0 := WriteAt(g, q, [0]);
    if at0 != other0 {
      return 0;
    }
    ch := 1;
    var at1 := WriteAt(f, p, [1]);
    var other1 := WriteAt(g, q, [1]);
    assert at1[p] == 1 && at0[p] == 0;
    assert other1[p] == other0[p];
  }

  /** The operations and one character more are carried out, and both files closed are the same. */
  ghost predicate SameFiles(file: seq<Byte>, ops: seq<WriteOp>, ch: int) {
    var r := CachedRun(file, ops + [PutChar(ch)]);
    r.Some? && Close(r.value).file == PlainRun(file, ops + [PutChar(ch)]).file
  }

  /**
   * Buffered and unbuffered output leave the same file, wherever it is closed and whatever character
   * comes last, exactly if the copy loop serves every write and no seek finds bytes collected.
   */
  lemma SeeksDecide(file: seq<Byte>, ops: seq<WriteOp>)
    ensures AllGoWell(ops) <==> forall k, ch :: 0 <= k <= |ops| ==> SameFiles(file, ops[..k], ch)
    ensures AllGoWell(ops) ==> CachedRun(file, ops).Some? && Close(CachedRun(file, ops).value) == PlainRun(file, ops)
  {
    hide AllGoWell, Close, CachedRun, PlainRun;
    if AllGoWell(ops) {
      Agree(file, ops);
      forall k, ch | 0 <= k <= |ops| ensures SameFiles(file, ops[..k], ch) {
        StaysAlike(file, ops, k, ch);
      }
    } else {
      var k, ch := Disagree(file, ops);
    }
  }

  lemma StaysAlike(file: seq<Byte>, ops: seq<WriteOp>, k: nat, ch: int)
    requires AllGoWell(ops) && k <= |ops|
    ensures SameFiles(file, ops[..k], ch)
  {
    hide Close, CachedRun, PlainRun, Collected, Accepts;
    var more := ops[..k] + [PutChar(ch)];
    forall j | 0 <= j < |more| ensures GoesWell(Collected(more[..j]), more[j]) {
      if j < k {
        assert more[..j] == ops[..j] && more[j] == ops[j];
      }
    }
    Agree(file, more);
  }

  /** The first operation that does not go well. */
  lemma {:induction false} FirstBad(ops: seq<WriteOp>) returns (k: nat)
    requires !AllGoWell(ops)
    ensures k < |ops| && !GoesWell(Collected(ops[..k]), ops[k]) && AllGoWell(ops[..k])
    decreases |ops|
  {
    hide Collected, GoesWell;
    k :| k < |ops| && !GoesWell(Collected(ops[..k]), ops[k]);
    if !AllGoWell(ops[..k]) {
      var j := FirstBad(ops[..k]);
      assert ops[..k][..j] == ops[..j];
      k := j;
    }
  }

  lemma Disagree(file: seq<Byte>, ops: seq<WriteOp>) returns (k: nat, ch: int)
    requires !AllGoWell(ops)
    ensures k <= |ops| && !SameFiles(file, ops[..k], ch)
  {
    hide Collected, AllGoWell, CachedStep, PlainStep, Close, Accepts;
    var j := FirstBad(ops);
    Agree(file, ops[..j]);
    CollectedIs(file, ops[..j]);
    StepCloses(CachedRun(file, ops[..j]).value, ops[j]);
    k := j + 1;
    var pre := ops[..k];
    assert pre[..|pre| - 1] == ops[..j] && pre[|pre| - 1] == ops[j];
    OneMore(file, pre, 0);
    ch := 0;
    if ops[j].MoveTo? {
      var s, p := CachedRun(file, pre).value, PlainRun(file, pre);
      ch := PositionShows(Close(s).file, Close(s).fd, p.file, p.fd);
      OneMore(file, pre, ch);
    }
  }

  lemma OneMore(file: seq<Byte>, ops: seq<WriteOp>, ch: int)
    ensures var r, more := CachedRun(file, ops), CachedRun(file, ops + [PutChar(ch)]);
      more.Some? == r.Some? && (r.Some? ==> Close(more.value) == Put(Close(r.value), [ToByte(ch)]))
    ensures PlainRun(file, ops + [PutChar(ch)]) == Put(PlainRun(file, ops), [ToByte(ch)])
  {
    hide Close, Put;
    var more := ops + [PutChar(ch)];
    assert more[..|more| - 1] == ops && more[|more| - 1] == PutChar(ch);
    CollectedIs(file, ops);
    if CachedRun(file, ops).Some? {
      StepCloses(CachedRun(file, ops).value, PutChar(ch));
    }
  }

  // ---------------------------------------------------------------- both writers

  method FastPut(f: Writer, op: WriteOp) returns (ok: bool)
    requires f.Valid()
    modifies f, f.cache, f.buffers[0]
    ensures f.Valid() && CachedStep(old(f.State()), op) == if ok then Some(f.State()) else None
  {
    ok := true;
    match op
    case PutChar(ch) =>
      var r := f.Writec(ch);
    case PutBlock(bytes) =>
      var n;
      ok, n := f.Write(bytes);
      assert ok ==> bytes[..n] == bytes;
    case FlushAll =>
      var r := f.Flush();
    case MoveTo(pos) =>
      var r := f.Seek(pos);
  }

  method SlowPut(f: SlowWriter, op: WriteOp)
    modifies f
    ensures f.State() == PlainStep(old(f.State()), op)
  {
    match op
    case PutChar(ch) =>
      var r := f.Writec(ch);
    case PutBlock(bytes) =>
      var n := f.Write(bytes);
    case FlushAll =>
    case MoveTo(pos) =>
      var r := f.Seek(pos);
  }

  /**
   * Any sequence of writes, flushes and seeks on both writers: closing the buffered one leaves the file
   * that CachedRun says, unless a write is not served; and the same as unbuffered if all go well.
   */
  method WritersAgree(file: seq<Byte>, ops: seq<WriteOp>) returns (closed: Option<seq<Byte>>, slow: seq<Byte>)
    ensures match CachedRun(file, ops) case Some(s) => closed == Some(Close(s).file) case None => closed == None
    ensures slow == PlainRun(file, ops).file && (AllGoWell(ops) ==> closed == Some(slow))
  {
    hide CachedStep, PlainStep, AllGoWell, Close, Collected;
    var f := new Writer(file);
    var g := new SlowWriter(file);
    var ok := true;
    for k := 0 to |ops|
      invariant f.Valid() && fresh(f) && fresh(f.cache) && fresh(f.buffers[0]) && fresh(g)
      invariant CachedRun(file, ops[..k]) == if ok then Some(f.State()) else None
      invariant g.State() == PlainRun(file, ops[..k])
    {
      assert ops[..k + 1][..k] == ops[..k];
      if ok {
        ok := FastPut(f, ops[k]);
      }
      SlowPut(g, ops[k]);
    }
    assert ops[..|ops|] == ops;
    SeeksDecide(file, ops);
    slow := g.file;
    if !ok {
      return None, slow;
    }
    FlushedFile(f.State());
    var r := f.Flush();
    closed := Some(f.file);
  }

  lemma FlushedFile(s: Cached)
    ensures Flushed(s).file == Close(s).file
  {}
}
