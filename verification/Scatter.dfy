/**
 * Scattering a file over several files block by block, and gathering them again
 * (pset3/scatter61.c, pset3/gather61.c).
 */
module Scatter {
  import opened Common
  import opened Io61
  import opened Stride

  /** whichf = (whichf + 1) % nfiles */
  function Next(which: nat, n: nat): (r: nat)
    requires which < n
    ensures r < n
  {
    if which + 1 == n then 0 else which + 1
  }

  lemma NextIsModulo(which: nat, n: nat)
    requires which < n
    ensures Next(which, n) == (which + 1) % n
  {
    if which + 1 == n {
      DivUnique(n, n, 1, 0);
    } else {
      DivUnique(which + 1, n, 0, which + 1);
    }
  }

  // ---------------------------------------------------------------- scatter

  /** scatter61's loop on what is left of its input. */
  function ScatterRun(rest: seq<Byte>, b: nat, which: nat, files: seq<seq<Byte>>): (r: seq<seq<Byte>>)
    requires b >= 1 && which < |files|
    ensures |r| == |files|
    decreases |rest|
  {
    if rest == [] then files
    else
      var block := Slice(rest, 0, b);
      ScatterRun(rest[|block|..], b, Next(which, |files|), files[which := files[which] + block])
  }

  method ScatterFile(data: seq<Byte>, b: nat, outfs: array<seq<Byte>>)
    requires b >= 1 && outfs.Length >= 1
    modifies outfs
    ensures outfs[..] == ScatterRun(data, b, 0, old(outfs[..]))
  {
    var inf := new SlowReader(data);
    var which: nat := 0;
    while true
      invariant which < outfs.Length && inf.data == data && inf.fd <= |data| && fresh(inf)
      invariant ScatterRun(data, b, 0, old(outfs[..])) == ScatterRun(data[inf.fd..], b, which, outfs[..])
      decreases |data| - inf.fd
    {
      ghost var rest, files := data[inf.fd..], outfs[..];
      SliceOfRest(data, inf.fd, b);
      var buf := new Byte[b](i => 0);
      var amount := inf.Read(buf, b);
      if amount <= 0 {
        break;
      }
      outfs[which] := outfs[which] + buf[..amount];
      NextIsModulo(which, outfs.Length);
      which := (which + 1) % outfs.Length;
    }
  }

  lemma SliceOfRest(data: seq<Byte>, p: nat, b: nat)
    requires p <= |data| && b >= 1
    ensures Slice(data, p, b) == Slice(data[p..], 0, b) && (Slice(data, p, b) == [] <==> p == |data|)
    ensures p + |Slice(data, p, b)| <= |data|
    ensures data[p..][|Slice(data, p, b)|..] == data[p + |Slice(data, p, b)|..]
  {}

  // ---------------------------------------------------------------- gather

  /** What is left of each input file; None once it is closed. */
  type Inputs = seq<Option<seq<Byte>>>

  function OpenCount(files: Inputs): (r: nat)
    ensures r <= |files| && (r == 0 <==> forall i :: 0 <= i < |files| ==> files[i].None?)
  {
    if files == [] then 0 else OpenCount(files[..|files| - 1]) + if files[|files| - 1].Some? then 1 else 0
  }

  function FirstOpen(files: Inputs): (r: nat)
    requires OpenCount(files) > 0
    ensures r < |files| && files[r].Some?
    decreases |files|
  {
    if files[0].Some? then 0
    else
      assert OpenCount(files[1..]) > 0 by {
        var i :| 0 <= i < |files| && files[i].Some?;
        assert files[1..][i - 1].Some?;
      }
      1 + FirstOpen(files[1..])
  }

  /** How many files the loop passes before the first open one. */
  function Distance(files: Inputs, which: nat): nat
    requires which < |files|
  {
    if OpenCount(files) == 0 then 0
    else if which <= FirstOpen(files) then FirstOpen(files) - which else FirstOpen(files) + |files| - which
  }

  /** The bytes left, and one more for each file still to be closed. */
  function Left(files: Inputs): nat {
    if files == [] then 0
    else Left(files[..|files| - 1]) + match files[|files| - 1] case None => 0 case Some(s) => 1 + |s|
  }

  lemma {:induction false} LeftFalls(files: Inputs, i: nat, f: Option<seq<Byte>>)
    requires i < |files| && files[i].Some? && (f.Some? ==> |f.value| < |files[i].value|)
    ensures Left(files[i := f]) < Left(files)
    decreases |files|
  {
    var last := |files| - 1;
    if i == last {
      assert files[i := f][..last] == files[..last];
    } else {
      LeftFalls(files[..last], i, f);
      assert files[i := f][..last] == files[..last][i := f];
    }
  }

  lemma {:induction false} CloseOne(files: Inputs, i: nat, f: Option<seq<Byte>>)
    requires i < |files| && files[i].Some?
    ensures OpenCount(files[i := f]) == OpenCount(files) - if f.None? then 1 else 0
    decreases |files|
  {
    var last := |files| - 1;
    if i == last {
      assert files[i := f][..last] == files[..last];
    } else {
      CloseOne(files[..last], i, f);
      assert files[i := f][..last] == files[..last][i := f];
    }
  }

  /** gather61's loop; the bytes left, the open files and the way to the first of them bound it. */
  function GatherRun(files: Inputs, b: nat, which: nat, out: seq<Byte>): seq<Byte>
    requires b >= 1 && which < |files|
    decreases Left(files), Distance(files, which)
  {
    if OpenCount(files) == 0 then out
    else
      match files[which]
      case None => GatherRun(files, b, Next(which, |files|), out)
      case Some(s) =>
        var block := Slice(s, 0, b);
        if block == [] then
          LeftFalls(files, which, None);
          GatherRun(files[which := None], b, Next(which, |files|), out)
        else
          LeftFalls(files, which, Some(s[|block|..]));
          GatherRun(files[which := Some(s[|block|..])], b, Next(which, |files|), out + block)
  }

  function Opened(contents: seq<seq<Byte>>): Inputs {
    seq(|contents|, i requires 0 <= i < |contents| => Some(contents[i]))
  }

  ghost predicate Distinct(infs: seq<SlowReader?>) {
    forall i, j :: 0 <= i < j < |infs| && infs[i] != null ==> infs[i] != infs[j]
  }

  ghost function Remains(infs: seq<SlowReader?>): (r: Inputs)
    reads infs
    ensures |r| == |infs|
  {
    seq(|infs|, i requires 0 <= i < |infs| reads infs =>
      if infs[i] == null then None else Some(if infs[i].fd <= |infs[i].data| then infs[i].data[infs[i].fd..] else []))
  }

  method Open(contents: seq<seq<Byte>>) returns (infs: array<SlowReader?>)
    ensures fresh(infs) && infs.Length == |contents| && Distinct(infs[..]) && Remains(infs[..]) == Opened(contents)
    ensures forall i :: 0 <= i < |contents| ==> infs[i] != null && fresh(infs[i]) && infs[i].fd == 0
  {
    infs := new SlowReader?[|contents|](i => null);
    for k := 0 to |contents|
      invariant forall i :: 0 <= i < k ==>
        infs[i] != null && fresh(infs[i]) && infs[i].data == contents[i] && infs[i].fd == 0
      invariant forall i :: k <= i < |contents| ==> infs[i] == null
      invariant forall i, j :: 0 <= i < j < k ==> infs[i] != infs[j]
    {
      infs[k] := new SlowReader(contents[k]);
    }
  }

  /** One turn of the loop: what it does, and that it comes closer to the end. */
  lemma GatherTurn(files: Inputs, b: nat, which: nat, out: seq<Byte>)
    requires b >= 1 && which < |files| && OpenCount(files) > 0
    ensures var next := Next(which, |files|);
      match files[which]
      case None =>
        && GatherRun(files, b, which, out) == GatherRun(files, b, next, out)
        && Distance(files, next) < Distance(files, which)
      case Some(s) =>
        var block := Slice(s, 0, b);
        if block == [] then
          && GatherRun(files, b, which, out) == GatherRun(files[which := None], b, next, out)
          && Left(files[which := None]) < Left(files) && OpenCount(files[which := None]) == OpenCount(files) - 1
        else
          var rest := Some(s[|block|..]);
          && GatherRun(files, b, which, out) == GatherRun(files[which := rest], b, next, out + block)
          && Left(files[which := rest]) < Left(files) && OpenCount(files[which := rest]) == OpenCount(files)
  {
    if files[which].Some? {
      var s := files[which].value;
      var rest := Some(s[|Slice(s, 0, b)|..]);
      CloseOne(files, which, None);
      CloseOne(files, which, rest);
      LeftFalls(files, which, None);
      if Slice(s, 0, b) != [] {
        LeftFalls(files, which, rest);
      }
    }
  }

  lemma GatherDone(files: Inputs, b: nat, which: nat, out: seq<Byte>)
    requires b >= 1 && which < |files| && OpenCount(files) == 0
    ensures GatherRun(files, b, which, out) == out
  {}

  ghost predicate Usable(infs: seq<SlowReader?>)
    reads infs
  {
    Distinct(infs) && forall i :: 0 <= i < |infs| && infs[i] != null ==> infs[i].fd <= |infs[i].data|
  }

  /** The next block of one file. */
  method ReadFrom(f: SlowReader, b: nat) returns (block: seq<Byte>)
    requires b >= 1 && f.fd <= |f.data|
    modifies f
    ensures f.fd <= |f.data| && block == Slice(old(f.data[f.fd..]), 0, b) && |block| <= |old(f.data[f.fd..])|
    ensures f.data[f.fd..] == old(f.data[f.fd..])[|block|..]
  {
    hide Slice;
    SliceOfRest(f.data, f.fd, b);
    var buf := new Byte[b](i => 0);
    var amount := f.Read(buf, b);
    block := buf[..amount];
  }

  /** The body of the loop: a block of the file whose turn it is; a file without one is closed. */
  method ReadBlock(infs: array<SlowReader?>, b: nat, which: nat) returns (block: seq<Byte>, closed: bool)
    requires which < infs.Length && b >= 1 && Usable(infs[..])
    modifies infs, infs[which]
    ensures Usable(infs[..]) && forall i :: 0 <= i < infs.Length && infs[i] != null ==> infs[i] == old(infs[i])
    ensures var files := old(Remains(infs[..]));
      match files[which]
      case None => block == [] && !closed && Remains(infs[..]) == files
      case Some(s) =>
        && block == Slice(s, 0, b) && closed == (block == [])
        && Remains(infs[..]) == files[which := if closed then None else Some(s[|block|..])]
  {
    hide Slice;
    block, closed := [], false;
    if infs[which] != null {
      var f := infs[which];
      ghost var all := infs[..];
      forall i | 0 <= i < |all| && i != which ensures all[i] != f {}
      block := ReadFrom(f, b);
      if block == [] {
        infs[which] := null;
        closed := true;
      }
    }
  }

  /** The loop of gather61; every turn brings it closer to the last file's end. */
  method GatherFiles(contents: seq<seq<Byte>>, b: nat) returns (out: seq<Byte>)
    requires b >= 1 && |contents| >= 1
    ensures out == GatherRun(Opened(contents), b, 0, [])
  {
    hide GatherRun, Slice, Left, OpenCount, Distance, Remains;
    var infs := Open(contents);
    var which: nat, dead := 0, 0;
    out := [];
    OpenedCount(contents);
    while dead != |contents|
      invariant infs.Length == |contents| && which < |contents| && fresh(infs) && Usable(infs[..])
      invariant forall i :: 0 <= i < |contents| && infs[i] != null ==> fresh(infs[i])
      invariant dead == |contents| - OpenCount(Remains(infs[..]))
      invariant GatherRun(Opened(contents), b, 0, []) == GatherRun(Remains(infs[..]), b, which, out)
      decreases Left(Remains(infs[..])), Distance(Remains(infs[..]), which)
    {
      GatherTurn(Remains(infs[..]), b, which, out);
      var block, closed := ReadBlock(infs, b, which);
      assert out + [] == out;
      out := out + block;
      if closed {
        dead := dead + 1;
      }
      NextIsModulo(which, |contents|);
      which := (which + 1) % |contents|;
    }
    GatherDone(Remains(infs[..]), b, which, out);
  }

  lemma {:induction false} OpenedCount(contents: seq<seq<Byte>>)
    ensures OpenCount(Opened(contents)) == |contents|
    decreases |contents|
  {
    if contents != [] {
      OpenedCount(contents[..|contents| - 1]);
      assert Opened(contents)[..|contents| - 1] == Opened(contents[..|contents| - 1]);
    }
  }

  // ---------------------------------------------------------------- the round trip

  /** The bytes of `rest` that go to the file j places after the one whose turn it is. */
  function Part(rest: seq<Byte>, b: nat, n: nat, j: nat): seq<Byte>
    requires b >= 1 && j < n
    decreases |rest|
  {
    if rest == [] then []
    else
      var block := Slice(rest, 0, b);
      if j == 0 then block + Part(rest[|block|..], b, n, n - 1) else Part(rest[|block|..], b, n, j - 1)
  }

  /** How many turns until file f's. */
  function Turns(f: nat, which: nat, n: nat): (r: nat)
    requires f < n && which < n
    ensures r < n
  {
    if which <= f then f - which else f + n - which
  }

  /** Each file gets its part, behind what it already holds. */
  lemma {:induction false} Scatters(rest: seq<Byte>, b: nat, which: nat, files: seq<seq<Byte>>, f: nat)
    requires b >= 1 && which < |files| && f < |files|
    ensures ScatterRun(rest, b, which, files)[f] == files[f] + Part(rest, b, |files|, Turns(f, which, |files|))
    decreases |rest|
  {
    if rest != [] {
      var block := Slice(rest, 0, b);
      Scatters(rest[|block|..], b, Next(which, |files|), files[which := files[which] + block], f);
    }
  }

  /** Every open file holds its part of `rest`; files are closed only when there is no rest. */
  ghost predicate Dealt(files: Inputs, rest: seq<Byte>, b: nat, which: nat) {
    && b >= 1 && which < |files|
    && forall f :: 0 <= f < |files| ==>
         if files[f].None? then rest == [] else files[f].value == Part(rest, b, |files|, Turns(f, which, |files|))
  }

  lemma {:induction false} Gathers(files: Inputs, rest: seq<Byte>, b: nat, which: nat, out: seq<Byte>)
    requires Dealt(files, rest, b, which)
    ensures GatherRun(files, b, which, out) == out + (if OpenCount(files) == 0 then [] else rest)
    decreases Left(files), Distance(files, which)
  {
    hide Slice, Part, Left, Distance;
    if OpenCount(files) != 0 {
      hide GatherRun, OpenCount;
      GatherTurn(files, b, which, out);
      var next := Next(which, |files|);
      match files[which]
      case None =>
        SkipDealt(files, files, rest, b, which);
        Gathers(files, rest, b, next, out);
      case Some(s) =>
        var block := Slice(s, 0, b);
        PartBlock(rest, b, |files|);
        if block == [] {
          SkipDealt(files, files[which := None], rest, b, which);
          Gathers(files[which := None], rest, b, next, out);
        } else {
          TakeDealt(files, rest, b, which);
          Gathers(files[which := Some(s[|block|..])], rest[|block|..], b, next, out + block);
          assert out + block + rest[|block|..] == out + rest;
        }
    }
  }

  /** With nothing left, the turn passes on and a file may be closed. */
  lemma SkipDealt(files: Inputs, files2: Inputs, rest: seq<Byte>, b: nat, which: nat)
    requires Dealt(files, rest, b, which) && rest == []
    requires files2 == files || files2 == files[which := None]
    ensures Dealt(files2, rest, b, Next(which, |files|))
  {}

  /** Taking the block of the file whose turn it is leaves every file its part of the remaining rest. */
  lemma TakeDealt(files: Inputs, rest: seq<Byte>, b: nat, which: nat)
    requires Dealt(files, rest, b, which) && files[which].Some? && rest != []
    ensures var block := Slice(rest, 0, b);
            |block| <= |files[which].value|
            && Dealt(files[which := Some(files[which].value[|block|..])], rest[|block|..], b, Next(which, |files|))
  {
    PartBlock(rest, b, |files|);
    hide Slice;
  }

  /** The file whose turn it is starts with the first block of the rest. */
  lemma PartBlock(rest: seq<Byte>, b: nat, n: nat)
    requires b >= 1 && n >= 1
    ensures Part(rest, b, n, 0) == [] <==> rest == []
    ensures Slice(Part(rest, b, n, 0), 0, b) == Slice(rest, 0, b) && (Slice(rest, 0, b) == [] <==> rest == [])
    ensures |Slice(rest, 0, b)| <= |Part(rest, b, n, 0)| && rest == Slice(rest, 0, b) + rest[|Slice(rest, 0, b)|..]
    ensures rest != [] ==> Part(rest, b, n, 0)[|Slice(rest, 0, b)|..] == Part(rest[|Slice(rest, 0, b)|..], b, n, n - 1)
  {}

  function Empties(n: nat): (r: seq<seq<Byte>>)
    ensures |r| == n && forall i :: 0 <= i < n ==> r[i] == []
  {
    seq(n, i => [])
  }

  /** Gathering the scattered files in the same order and block size gives back the input. */
  lemma RoundTrip(data: seq<Byte>, b: nat, n: nat)
    requires b >= 1 && n >= 1
    ensures GatherRun(Opened(ScatterRun(data, b, 0, Empties(n))), b, 0, []) == data
  {
    var empty := Empties(n);
    var parts := ScatterRun(data, b, 0, empty);
    forall f | 0 <= f < n ensures parts[f] == Part(data, b, n, Turns(f, 0, n)) {
      Scatters(data, b, 0, empty, f);
    }
    OpenedCount(parts);
    Gathers(Opened(parts), data, b, 0, []);
  }

  /** scatter61 to n new files, then gather61 from them. */
  method ScatterThenGather(data: seq<Byte>, b: nat, n: nat) returns (out: seq<Byte>)
    requires b >= 1 && n >= 1
    ensures out == data
  {
    var outfs := new seq<Byte>[n](i => []);
    assert outfs[..] == Empties(n);
    ScatterFile(data, b, outfs);
    RoundTrip(data, b, n);
    out := GatherFiles(outfs[..], b);
  }
}
