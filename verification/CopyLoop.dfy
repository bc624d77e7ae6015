/**
 * The arithmetic of the copy loops of io61_read and io61_write (pset3/io61.c:243-288, 350-381).
 * Each turn copies what is left in the current buffer, up to total_char_left; and total_char_left
 * loses in every turn all that was copied so far, not what the last turn copied.
 */
module CopyLoop {
  const BUFFER_SIZE := 4096
  const INT_MAX := 0x7FFF_FFFF
  const SIZE_MAX := 0xFFFF_FFFF_FFFF_FFFF

  /** Conversion to size_t. */
  function ToSize(x: int): nat { x % 0x1_0000_0000_0000_0000 }

  /** total_char_left -= nread */
  function Remaining(total: nat, nread: nat): (r: nat)
    ensures r <= SIZE_MAX && (total == 0 && 0 < nread <= SIZE_MAX ==> r > 0)
    ensures nread <= total <= SIZE_MAX ==> r == total - nread
  {
    ToSize(total - nread)
  }

  function Min(a: int, b: int): int { if a < b then a else b }

  /** How a request ends: after n bytes, or with a turn that copies n bytes at `at`, past the request's end. */
  datatype Ending = Served(n: nat) | Overruns(at: nat, n: nat)

  /** How many bytes of the request were copied. */
  function Copied(e: Ending): nat {
    match e
    case Served(n) => n
    case Overruns(at, _) => at
  }

  /**
   * The loop for a request of sz bytes, of which nread are copied: `left` bytes are left in the
   * current buffer and `rest` in the file, the next buffers taking BUFFER_SIZE each.
   */
  function Loop(sz: nat, nread: nat, total: nat, left: nat, rest: nat): Ending
    requires 0 < left <= rest && nread <= sz <= SIZE_MAX && (nread == 0 ==> total == sz)
    decreases rest, if total == 0 then 0 else 1
  {
    if nread == sz then Served(nread)
    else
      var total2 := Remaining(total, nread);
      var n := Min(left, total2);
      if nread + n > sz then Overruns(nread, n)
      else if n == rest then Served(nread + n)
      else Loop(sz, nread + n, total2, if n == left then Min(BUFFER_SIZE, rest - n) else left - n, rest - n)
  }

  lemma Finished(sz: nat, total: nat, left: nat, rest: nat)
    requires 0 < left <= rest && sz <= SIZE_MAX && (sz == 0 ==> total == sz)
    ensures Loop(sz, sz, total, left, rest) == Served(sz)
  {}

  /** One turn of the loop. */
  lemma Turn(sz: nat, nread: nat, total: nat, left: nat, rest: nat)
    requires 0 < left <= rest && nread < sz <= SIZE_MAX && (nread == 0 ==> total == sz)
    ensures
      var total2 := Remaining(total, nread);
      var n := Min(left, total2);
      Loop(sz, nread, total, left, rest) ==
        if nread + n > sz then Overruns(nread, n)
        else if n == rest then Served(nread + n)
        else Loop(sz, nread + n, total2, if n == left then Min(BUFFER_SIZE, rest - n) else left - n, rest - n)
  {}

  /** A turn moves on, or the next one does. */
  lemma TurnMoves(sz: nat, nread: nat, total: nat, left: nat)
    requires 0 < left && nread < sz <= SIZE_MAX && (nread == 0 ==> total == sz)
    ensures var total2 := Remaining(total, nread); var n := Min(left, total2);
      && (nread + n == 0 ==> total2 == sz) && (n == 0 ==> total != 0 && total2 == 0)
  {}

  /** The requests that the loop serves, as ServedExactly shows. */
  predicate Serves(sz: nat, first: int, rest: int) {
    sz <= first + BUFFER_SIZE || rest <= sz || (sz - first) % 4096 == 0
  }

  /** Behind the first buffer lie whole ones: the current one ends `left` bytes on, or with the file. */
  ghost predicate AtEdge(first: nat, nread: nat, left: nat, rest: nat, edge: int) {
    && 0 < first <= BUFFER_SIZE && edge - BUFFER_SIZE <= nread < edge && (edge - first) % 4096 == 0
    && left == Min(edge - nread, rest) && 0 < left
  }

  /** When the file ends within the request, every turn is right. */
  lemma {:induction false} ToTheEnd(sz: nat, nread: nat, total: nat, left: nat, rest: nat)
    requires 0 < left <= rest && nread + rest <= sz <= SIZE_MAX && (nread == 0 ==> total == sz)
    ensures Loop(sz, nread, total, left, rest) == Served(nread + rest)
    decreases rest, if total == 0 then 0 else 1
  {
    var total2 := Remaining(total, nread);
    var n := Min(left, total2);
    if n != rest {
      ToTheEnd(sz, nread + n, total2, if n == left then Min(BUFFER_SIZE, rest - n) else left - n, rest - n);
    }
  }

  /** When the request ends where a buffer ends, no turn passes its end. */
  lemma {:induction false} ToAnEdge(sz: nat, first: nat, nread: nat, total: nat, left: nat, rest: nat, edge: int)
    requires left <= rest && nread <= sz <= SIZE_MAX && (nread == 0 ==> total == sz) && nread + rest > sz
    requires AtEdge(first, nread, left, rest, edge) && (sz - first) % 4096 == 0
    ensures Loop(sz, nread, total, left, rest) == Served(sz)
    decreases rest, if total == 0 then 0 else 1
  {
    hide Loop, Remaining;
    if nread == sz {
      Finished(sz, total, left, rest);
    } else {
      Turn(sz, nread, total, left, rest);
      var total2 := Remaining(total, nread);
      var n := Min(left, total2);
      assert edge <= sz;
      if n == left {
        ToAnEdge(sz, first, nread + n, total2, Min(BUFFER_SIZE, rest - n), rest - n, edge + BUFFER_SIZE);
      } else {
        ToAnEdge(sz, first, nread + n, total2, left - n, rest - n, edge);
      }
    }
  }

  /** Two turns are right: a request that ends within the second buffer. */
  lemma TwoTurns(sz: nat, first: nat, rest: nat)
    requires 0 < first <= rest && first <= BUFFER_SIZE && sz <= first + BUFFER_SIZE && sz < rest
    ensures Loop(sz, 0, sz, first, rest) == Served(sz)
  {
    if sz > 0 {
      assert Remaining(sz, 0) == sz;
      if sz >= first {
        assert Remaining(sz, first) == sz - first;
        var left := Min(BUFFER_SIZE, rest - first);
        assert Loop(sz, 0, sz, first, rest) == Loop(sz, first, sz, left, rest - first);
        if sz > first {
          var n := sz - first;
          assert Loop(sz, first, sz, left, rest - first)
              == Loop(sz, sz, n, if n == left then Min(BUFFER_SIZE, rest - sz) else left - n, rest - sz);
        }
      }
    }
  }

  /** The count has wrapped around: it stays larger than any buffer. */
  ghost predicate Wrapped(total: nat, nread: nat) { total + 0x1_0000_0000 * (nread + 1) >= 0x1_0000_0000_0000_0000 }

  /** From the third turn on a request that ends inside a buffer is missed, and then passed. */
  lemma {:induction false} Misses(sz: nat, first: nat, nread: nat, total: nat, left: nat, rest: nat, edge: int)
    requires left <= rest && 0 < nread < sz <= INT_MAX && nread + rest > sz && total <= SIZE_MAX
    requires AtEdge(first, nread, left, rest, edge) && (sz - first) % 4096 != 0
    requires total < sz || Wrapped(total, nread)
    ensures Loop(sz, nread, total, left, rest).Overruns?
    decreases rest, if total == 0 then 0 else 1
  {
    hide Loop, Remaining;
    Turn(sz, nread, total, left, rest);
    var total2 := Remaining(total, nread);
    var n := Min(left, total2);
    RemainingStays(sz, total, nread);
    assert nread + n != sz;
    if nread + n < sz {
      if n == left {
        Misses(sz, first, nread + n, total2, Min(BUFFER_SIZE, rest - n), rest - n, edge + BUFFER_SIZE);
      } else {
        Misses(sz, first, nread + n, total2, left - n, rest - n, edge);
      }
    }
  }

  lemma RemainingStays(sz: nat, total: nat, nread: nat)
    requires 0 < nread < sz <= INT_MAX && total <= SIZE_MAX && (total < sz || Wrapped(total, nread))
    ensures var t := Remaining(total, nread);
      || (nread <= total < sz && t == total - nread)
      || (t > BUFFER_SIZE && Wrapped(t, nread + 1))
  {
    if total < nread {
      assert Remaining(total, nread) == total - nread + 0x1_0000_0000_0000_0000;
    } else {
      assert Remaining(total, nread) == total - nread;
    }
  }

  /**
   * Exactly the requests the loop serves: those that end within the buffer after the first, those
   * the file ends in, and those that end where a buffer ends. All others make a turn copy past the end.
   */
  lemma ServedExactly(sz: nat, first: nat, rest: nat)
    requires 0 < first <= rest && first <= BUFFER_SIZE && sz <= SIZE_MAX && (sz <= INT_MAX || rest <= sz)
    ensures Loop(sz, 0, sz, first, rest).Served? <==> Serves(sz, first, rest)
    ensures Loop(sz, 0, sz, first, rest).Served? ==> Loop(sz, 0, sz, first, rest).n == Min(sz, rest)
  {
    if rest <= sz {
      ToTheEnd(sz, 0, sz, first, rest);
    } else if sz <= first + BUFFER_SIZE {
      TwoTurns(sz, first, rest);
    } else if (sz - first) % 4096 == 0 {
      ToAnEdge(sz, first, 0, sz, first, rest, first);
    } else {
      ThirdTurnMisses(sz, first, rest);
    }
  }

  lemma FirstTurns(sz: nat, first: nat)
    requires first <= sz <= SIZE_MAX
    ensures Remaining(sz, 0) == sz && Remaining(sz, first) == sz - first
  {}

  lemma ThirdTurnMisses(sz: nat, first: nat, rest: nat)
    requires 0 < first <= BUFFER_SIZE && first + BUFFER_SIZE < sz < rest && sz <= INT_MAX && (sz - first) % 4096 != 0
    ensures Loop(sz, 0, sz, first, rest).Overruns?
  {
    hide Loop, Remaining;
    FirstTurns(sz, first);
    var rest2 := rest - first;
    Turn(sz, 0, sz, first, rest);
    Turn(sz, first, sz, BUFFER_SIZE, rest2);
    Misses(sz, first, first + BUFFER_SIZE, sz - first, Min(BUFFER_SIZE, rest2 - BUFFER_SIZE), rest2 - BUFFER_SIZE,
           first + BUFFER_SIZE + BUFFER_SIZE);
  }

  /** With a whole buffer first, a request of 8292 bytes: the third turn copies 4096 bytes where 100 are wanted. */
  lemma ThirdTurnOverruns(rest: nat)
    requires rest >= 3 * BUFFER_SIZE
    ensures Loop(8292, 0, 8292, BUFFER_SIZE, rest) == Overruns(8192, 4096) && 8292 - 8192 == 100
  {
    assert Remaining(8292, 0) == 8292 && Remaining(8292, 4096) == 4196;
    assert Remaining(4196, 8192) == 0x1_0000_0000_0000_0000 - 3996;
    assert Loop(8292, 0, 8292, 4096, rest) == Loop(8292, 4096, 8292, 4096, rest - 4096);
    assert Loop(8292, 4096, 8292, 4096, rest - 4096) == Loop(8292, 8192, 4196, 4096, rest - 8192);
  }
}
