/**
 * The dispatcher's circular queue (pset5/dispatch/queue.c, queue.h): a bounded FIFO over a
 * buffer of 16 slots, with 32-bit unsigned indices.
 */
module CircularQueue {
  const QUEUE_BUF_SIZE := 15
  const MAX_QUEUE_SIZE := 5

  /** A position in the buffer: modulo QUEUE_BUF_SIZE + 1. */
  function Wrap(i: nat): nat { i % 16 }

  /** tail - head on 32-bit unsigned operands. */
  function Minus(tail: nat, head: nat): nat
    requires head < 0x1_0000_0000
  {
    (tail + 0x1_0000_0000 - head) % 0x1_0000_0000
  }

  /** The number of elements between two indices, as size() computes it: unsigned, then modulo the buffer. */
  function Distance(head: nat, tail: nat): nat
    requires head <= QUEUE_BUF_SIZE
  {
    Wrap(Minus(tail, head))
  }

  /** What the buffer holds from `head` on, `n` elements, wrapping at the end. */
  function Unroll<T>(slots: seq<T>, head: nat, n: nat): (r: seq<T>)
    requires |slots| == QUEUE_BUF_SIZE + 1 && head <= QUEUE_BUF_SIZE
    ensures |r| == n
    decreases n
  {
    if n == 0 then []
    else [slots[head]] + Unroll(slots, if head == QUEUE_BUF_SIZE then 0 else head + 1, n - 1)
  }

  /** The index d places after head. */
  function Ahead(head: nat, d: nat): (r: nat)
    ensures r <= QUEUE_BUF_SIZE
  {
    Wrap(head + d)
  }

  lemma {:induction false} UnrollAt<T>(slots: seq<T>, head: nat, n: nat, i: nat)
    requires |slots| == QUEUE_BUF_SIZE + 1 && head <= QUEUE_BUF_SIZE && i < n
    ensures Unroll(slots, head, n)[i] == slots[Ahead(head, i)]
    decreases n
  {
    if i > 0 {
      UnrollAt(slots, if head == QUEUE_BUF_SIZE then 0 else head + 1, n - 1, i - 1);
    }
  }

  lemma WrapIs(i: nat)
    requires i < 32
    ensures Wrap(i) == if i < 16 then i else i - 16
  {}

  /** The unsigned difference modulo 16 counts the elements, also when the tail has wrapped below the head. */
  lemma DistanceIs(head: nat, tail: nat)
    requires head <= QUEUE_BUF_SIZE && tail <= QUEUE_BUF_SIZE
    ensures Distance(head, tail) == if head <= tail then tail - head else tail + 16 - head
  {
    if head > tail {
      var d: nat := head - tail;
      assert Minus(tail, head) == 0x1_0000_0000 - d == 16 * 0x0FFF_FFFF + (16 - d);
    }
  }

  /** The distance determines the tail; a push or a pop moves one end by one place. */
  lemma DistanceMoves(head: nat, tail: nat)
    requires head <= QUEUE_BUF_SIZE && tail <= QUEUE_BUF_SIZE
    ensures tail == Ahead(head, Distance(head, tail)) && Wrap(tail + 1) <= QUEUE_BUF_SIZE
    ensures Wrap(head + 1) <= QUEUE_BUF_SIZE
    ensures Wrap(head + 1) == if head == QUEUE_BUF_SIZE then 0 else head + 1
    ensures Distance(head, tail) < QUEUE_BUF_SIZE ==> Distance(head, Wrap(tail + 1)) == Distance(head, tail) + 1
    ensures head != tail ==> Distance(Wrap(head + 1), tail) == Distance(head, tail) - 1
    ensures head == tail <==> Distance(head, tail) == 0
  {
    hide Wrap, Minus, Distance;
    DistanceIs(head, tail);
    WrapIs(head + 1);
    WrapIs(tail + 1);
    WrapIs(head + Distance(head, tail));
    DistanceIs(head, Wrap(tail + 1));
    DistanceIs(Wrap(head + 1), tail);
  }

  /** Fewer than 16 places ahead are different slots. */
  lemma AheadDiffers(head: nat, i: nat, n: nat)
    requires head <= QUEUE_BUF_SIZE && i < n <= QUEUE_BUF_SIZE
    ensures Ahead(head, i) != Ahead(head, n)
  {
    hide Wrap;
    WrapIs(head + i);
    WrapIs(head + n);
  }

  /** Writing the slot behind the last element appends to what the buffer holds. */
  lemma UnrollPush<T>(slots: seq<T>, head: nat, n: nat, x: T)
    requires |slots| == QUEUE_BUF_SIZE + 1 && head <= QUEUE_BUF_SIZE && n <= QUEUE_BUF_SIZE
    ensures Unroll(slots[Ahead(head, n) := x], head, n + 1) == Unroll(slots, head, n) + [x]
  {
    hide Unroll, Ahead;
    var r := Unroll(slots[Ahead(head, n) := x], head, n + 1);
    forall i | 0 <= i < n + 1 ensures r[i] == (Unroll(slots, head, n) + [x])[i] {
      UnrollAt(slots[Ahead(head, n) := x], head, n + 1, i);
      if i < n {
        UnrollAt(slots, head, n, i);
        AheadDiffers(head, i, n);
      }
    }
  }

  class Queue<T> {
    var head: nat
    var tail: nat
    const slots: array<T>

    ghost predicate Valid()
      reads this
    {
      && slots.Length == QUEUE_BUF_SIZE + 1 && head <= QUEUE_BUF_SIZE && tail <= QUEUE_BUF_SIZE
      && Distance(head, tail) <= MAX_QUEUE_SIZE
    }

    /** The queued payloads, oldest first. */
    ghost function Contents(): (s: seq<T>)
      requires Valid()
      reads this, slots
      ensures |s| <= MAX_QUEUE_SIZE
    {
      Unroll(slots[..], head, Distance(head, tail))
    }

    /** queue_init, on a buffer of QUEUE_BUF_SIZE + 1 slots. */
    constructor (buffer: array<T>)
      requires buffer.Length == QUEUE_BUF_SIZE + 1
      ensures Valid() && Contents() == [] && slots == buffer
    {
      slots := buffer;
      head, tail := 0, 0;
    }

    /** Pushing to a full queue fails the assertion in the source. */
    method PushBack(payload: T)
      requires Valid() && |Contents()| < MAX_QUEUE_SIZE
      modifies this, slots
      ensures Valid() && Contents() == old(Contents()) + [payload]
    {
      ghost var n := Distance(head, tail);
      DistanceMoves(head, tail);
      UnrollPush(slots[..], head, n, payload);
      ghost var before := slots[..];
      slots[tail] := payload;
      assert slots[..] == before[tail := payload];
      tail := Wrap(tail + 1);
    }

    method PopFront() returns (popped: T)
      requires Valid() && Contents() != []
      modifies this
      ensures Valid() && [popped] + Contents() == old(Contents())
    {
      hide Wrap, Minus, Distance;
      DistanceMoves(head, tail);
      popped := slots[head];
      head := Wrap(head + 1);
    }

    method Size() returns (sz: nat)
      requires Valid()
      ensures sz == |Contents()|
    {
      sz := Wrap(Minus(tail, head));
    }

    method Empty() returns (r: bool)
      requires Valid()
      ensures r <==> Contents() == []
    {
      DistanceMoves(head, tail);
      r := head == tail;
    }
  }

  datatype Op<T> = Push(x: T) | Pop

  /**
   * A run of the bounded FIFO the queue stands for, and what it pops. Pushes to a full queue and
   * pops of an empty one, against which the source asserts, are not made.
   */
  function Fifo<T>(s: seq<T>, ops: seq<Op<T>>): (r: (seq<T>, seq<T>))
    decreases |ops|
  {
    if ops == [] then (s, [])
    else
      match ops[0]
      case Push(x) => Fifo(if |s| < MAX_QUEUE_SIZE then s + [x] else s, ops[1..])
      case Pop =>
        if s == [] then Fifo(s, ops[1..])
        else var (t, out) := Fifo(s[1..], ops[1..]); (t, [s[0]] + out)
  }

  /** Pushes that found room, in order. */
  function Accepted<T>(s: seq<T>, ops: seq<Op<T>>): seq<T>
    decreases |ops|
  {
    if ops == [] then []
    else
      match ops[0]
      case Push(x) =>
        if |s| < MAX_QUEUE_SIZE then [x] + Accepted(s + [x], ops[1..]) else Accepted(s, ops[1..])
      case Pop => Accepted(if s == [] then s else s[1..], ops[1..])
  }

  /** First in, first out: what came out followed by what is left is what was there followed by what went in. */
  lemma {:induction false} FifoOrder<T>(s: seq<T>, ops: seq<Op<T>>)
    ensures Fifo(s, ops).1 + Fifo(s, ops).0 == s + Accepted(s, ops)
    decreases |ops|
  {
    if ops != [] {
      match ops[0]
      case Push(x) =>
        FifoOrder(if |s| < MAX_QUEUE_SIZE then s + [x] else s, ops[1..]);
        assert s + [x] + Accepted(s + [x], ops[1..]) == s + ([x] + Accepted(s + [x], ops[1..]));
      case Pop =>
        if s == [] {
          FifoOrder(s, ops[1..]);
        } else {
          FifoOrder(s[1..], ops[1..]);
          var (t, out) := Fifo(s[1..], ops[1..]);
          assert [s[0]] + out + t == [s[0]] + (out + t);
          assert s + Accepted(s[1..], ops[1..]) == [s[0]] + (s[1..] + Accepted(s[1..], ops[1..]));
        }
    }
  }

  /** Any run of guarded pushes and pops on the circular buffer behaves as the FIFO. */
  method Drive<T>(q: Queue<T>, ops: seq<Op<T>>) returns (out: seq<T>)
    requires q.Valid()
    modifies q, q.slots
    ensures q.Valid() && (q.Contents(), out) == Fifo(old(q.Contents()), ops)
    ensures out + q.Contents() == old(q.Contents()) + Accepted(old(q.Contents()), ops)
  {
    out := [];
    assert ops[0..] == ops && out + Fifo(q.Contents(), ops).1 == Fifo(q.Contents(), ops).1;
    for i := 0 to |ops|
      invariant q.Valid()
      invariant Fifo(q.Contents(), ops[i..]).0 == Fifo(old(q.Contents()), ops).0
      invariant out + Fifo(q.Contents(), ops[i..]).1 == Fifo(old(q.Contents()), ops).1
    {
      assert ops[i..][0] == ops[i] && ops[i..][1..] == ops[i + 1..];
      match ops[i]
      case Push(x) =>
        var n := q.Size();
        if n < MAX_QUEUE_SIZE {
          q.PushBack(x);
        }
      case Pop =>
        var none := q.Empty();
        if !none {
          ghost var before := q.Contents();
          var x := q.PopFront();
          assert before[1..] == q.Contents() && before[0] == x;
          assert out + ([x] + Fifo(q.Contents(), ops[i + 1..]).1) == out + [x] + Fifo(q.Contents(), ops[i + 1..]).1;
          out := out + [x];
        }
    }
    assert ops[|ops|..] == [] && out + [] == out;
    FifoOrder(old(q.Contents()), ops);
  }
}
