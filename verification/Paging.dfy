/**
 * Two-level paging (pset6/k-hardware.c): looking an address up, mapping a range,
 * and what a lookup sees after a range has been mapped.
 */
module Paging {
  import opened Common
  import opened Machine

  /** What virtual_memory_lookup returns; pn is -1 and pa is NOADDR when nothing is mapped. */
  datatype VaMapping = VaMapping(pn: int, pa: nat, perm: Perm)

  const UNMAPPED := VaMapping(-1, NOADDR, NOPERM)

  /** The level-2 entry with its W and U bits masked by the level-1 entry. */
  function Mask(l1: Word, l2: Word): Word {
    Word(l2.frame, l2.perm.(w := l2.perm.w && l1.perm.w, u := l2.perm.u && l1.perm.u))
  }

  /** The effective entry for virtual page `vpn`; ABSENT when the page is not mapped. */
  function Walk(mem: seq<Page>, pt: nat, vpn: nat): Word
    requires pt < |mem| && vpn < L1_PAGES
  {
    var l1 := mem[pt][L1Index(vpn)];
    if !l1.perm.p || l1.frame >= |mem| then ABSENT
    else
      var e := Mask(l1, mem[l1.frame][L2Index(vpn)]);
      if e.perm.p then e else ABSENT
  }

  /** The answer virtual_memory_lookup owes for address `va`. */
  function Lookup(mem: seq<Page>, pt: nat, va: nat): VaMapping
    requires pt < |mem| && va < 0x1_0000_0000
  {
    var e := Walk(mem, pt, PageNumber(va));
    if e.perm.p then VaMapping(e.frame, e.frame * PAGESIZE + PageOffset(va), e.perm) else UNMAPPED
  }

  /** The level-1 entry admits a level-2 mapping with permissions `perm`. */
  predicate Admits(l1: Word, perm: Perm) {
    && l1.perm.p && l1.frame < VIRT_PAGES
    && (perm.w ==> l1.perm.w) && (perm.u ==> l1.perm.u)
  }

  function NewEntry(ppn: nat, perm: Perm): Word {
    Word(if perm.p then ppn else 0, perm)
  }

  /** Store to entry `i` of the table in frame `f`; frames without RAM ignore the store. */
  function PutEntry(mem: seq<Page>, f: nat, i: nat, w: Word): (m: seq<Page>)
    requires i < NENTRIES
    ensures |m| == |mem|
  {
    if f < |mem| then mem[f := mem[f][i := w]] else mem
  }

  /**
   * The loop of virtual_memory_map for `n` pages. `cached` is the level-1 index whose
   * level-2 table `l2` was found last (-1 at the start). None is a failed assertion.
   */
  function MapPages(mem: seq<Page>, pt: nat, cached: int, l2: nat, vpn: nat, ppn: nat, n: nat, perm: Perm)
    : (m: Option<seq<Page>>)
    requires pt < |mem| && vpn + n <= L1_PAGES
    ensures m.Some? ==> |m.value| == |mem|
    decreases n
  {
    if n == 0 then Some(mem)
    else if L1Index(vpn) == cached then
      MapPages(PutEntry(mem, l2, L2Index(vpn), NewEntry(ppn, perm)), pt, cached, l2, vpn + 1, ppn + 1, n - 1, perm)
    else
      var l1 := mem[pt][L1Index(vpn)];
      if !Admits(l1, perm) then None
      else
        MapPages(PutEntry(mem, l1.frame, L2Index(vpn), NewEntry(ppn, perm)), pt, L1Index(vpn), l1.frame,
                 vpn + 1, ppn + 1, n - 1, perm)
  }

  /** The level-2 tables are frames of RAM, distinct from one another and from the level-1 table. */
  ghost predicate DistinctTables(mem: seq<Page>, pt: nat)
    requires pt < |mem|
  {
    && (forall i :: 0 <= i < NENTRIES && mem[pt][i].perm.p ==> mem[pt][i].frame < |mem| && mem[pt][i].frame != pt)
    && (forall i, j :: 0 <= i < j < NENTRIES && mem[pt][i].perm.p && mem[pt][j].perm.p ==>
          mem[pt][i].frame != mem[pt][j].frame)
  }

  /** What a lookup of page v owes after ppn.. was mapped at vpn.. with permissions perm. */
  ghost function Mapped(mem: seq<Page>, pt: nat, vpn: nat, ppn: nat, n: nat, perm: Perm, v: nat): Word
    requires pt < |mem| && v < L1_PAGES
  {
    if vpn <= v < vpn + n then
      if perm.p then Mask(mem[pt][L1Index(v)], Word(ppn + (v - vpn), perm)) else ABSENT
    else Walk(mem, pt, v)
  }

  /** One store: the page it is for changes, no other page does. */
  lemma StoreOne(mem: seq<Page>, pt: nat, v: nat, w: Word, x: nat)
    requires pt < |mem| && DistinctTables(mem, pt)
    requires v < L1_PAGES && x < L1_PAGES
    requires mem[pt][L1Index(v)].perm.p
    ensures var m := PutEntry(mem, mem[pt][L1Index(v)].frame, L2Index(v), w);
            && DistinctTables(m, pt) && m[pt] == mem[pt]
            && (x != v ==> Walk(m, pt, x) == Walk(mem, pt, x))
            && Walk(m, pt, v) == (if w.perm.p then Mask(mem[pt][L1Index(v)], w) else ABSENT)
  {
    var m := PutEntry(mem, mem[pt][L1Index(v)].frame, L2Index(v), w);
    assert m[pt] == mem[pt];
    if x != v && L1Index(x) == L1Index(v) {
      assert L2Index(x) != L2Index(v);
    }
  }

  /** The loop fails exactly when some page of the range is not admitted by its level-1 entry. */
  lemma {:induction false} MapPagesSucceeds(mem: seq<Page>, pt: nat, cached: int, l2: nat, vpn: nat, ppn: nat, n: nat,
                                            perm: Perm)
    requires pt < |mem| && vpn + n <= L1_PAGES && DistinctTables(mem, pt)
    requires 0 <= cached < NENTRIES ==> l2 == mem[pt][cached].frame && Admits(mem[pt][cached], perm)
    ensures MapPages(mem, pt, cached, l2, vpn, ppn, n, perm).Some? <==>
            forall v :: vpn <= v < vpn + n ==> Admits(mem[pt][L1Index(v)], perm)
    decreases n
  {
    if n > 0 && Admits(mem[pt][L1Index(vpn)], perm) {
      var l1 := mem[pt][L1Index(vpn)];
      var next := PutEntry(mem, l1.frame, L2Index(vpn), NewEntry(ppn, perm));
      StoreOne(mem, pt, vpn, NewEntry(ppn, perm), 0);
      MapPagesSucceeds(next, pt, L1Index(vpn), l1.frame, vpn + 1, ppn + 1, n - 1, perm);
    }
  }

  /** When the loop succeeds, page `x` looks up as Mapped says. */
  lemma {:induction false} MapPagesCorrect(mem: seq<Page>, pt: nat, cached: int, l2: nat, vpn: nat, ppn: nat, n: nat,
                                           perm: Perm, x: nat)
    requires pt < |mem| && vpn + n <= L1_PAGES && DistinctTables(mem, pt) && x < L1_PAGES
    requires 0 <= cached < NENTRIES ==> l2 == mem[pt][cached].frame && Admits(mem[pt][cached], perm)
    requires MapPages(mem, pt, cached, l2, vpn, ppn, n, perm).Some?
    ensures var m := MapPages(mem, pt, cached, l2, vpn, ppn, n, perm).value;
            && |m| == |mem| && DistinctTables(m, pt) && m[pt] == mem[pt]
            && Walk(m, pt, x) == Mapped(mem, pt, vpn, ppn, n, perm, x)
    decreases n
  {
    if n > 0 {
      var l1 := mem[pt][L1Index(vpn)];
      var next := PutEntry(mem, l1.frame, L2Index(vpn), NewEntry(ppn, perm));
      StoreOne(mem, pt, vpn, NewEntry(ppn, perm), x);
      MapPagesCorrect(next, pt, L1Index(vpn), l1.frame, vpn + 1, ppn + 1, n - 1, perm, x);
    }
  }

  /** The assertions at the head of virtual_memory_map. */
  predicate MapRequestOk(va: nat, pa: nat, sz: nat, perm: Perm) {
    && PageOffset(va) == 0 && PageOffset(sz) == 0 && va + sz <= 0x1_0000_0000
    && (perm.p ==> PageOffset(pa) == 0 && pa + sz <= NPAGES * PAGESIZE)
  }

  /** What virtual_memory_map does; None when one of its assertions fails. */
  function MapRange(mem: seq<Page>, pt: nat, va: nat, pa: nat, sz: nat, perm: Perm): (m: Option<seq<Page>>)
    requires pt < |mem|
    ensures m.Some? ==> |m.value| == |mem|
  {
    if !MapRequestOk(va, pa, sz, perm) then None
    else MapPages(mem, pt, -1, 0, PageNumber(va), PageNumber(pa), PageNumber(sz), perm)
  }

  /**
   * Map, then look up: inside the range every address va+X leads to pa+X with the
   * requested flags masked by the level-1 entry; outside it nothing changes. The
   * request succeeds exactly when every level-1 entry it needs admits it.
   */
  lemma MapThenLookup(mem: seq<Page>, pt: nat, va: nat, pa: nat, sz: nat, perm: Perm, a: nat)
    requires |mem| == NPAGES && pt < |mem| && DistinctTables(mem, pt)
    requires MapRequestOk(va, pa, sz, perm) && perm.p
    requires a < 0x1_0000_0000
    ensures MapRange(mem, pt, va, pa, sz, perm).Some? <==>
            forall v :: PageNumber(va) <= v < PageNumber(va) + PageNumber(sz) ==> Admits(mem[pt][L1Index(v)], perm)
    ensures var m := MapRange(mem, pt, va, pa, sz, perm);
            m.Some? ==>
              && |m.value| == NPAGES
              && Lookup(m.value, pt, a) ==
                 if va <= a < va + sz then
                   VaMapping(PageNumber(pa + (a - va)), pa + (a - va),
                             Mask(mem[pt][L1Index(PageNumber(a))], Word(0, perm)).perm)
                 else Lookup(mem, pt, a)
  {
    var vpn, ppn, n := PageNumber(va), PageNumber(pa), PageNumber(sz);
    MapPagesSucceeds(mem, pt, -1, 0, vpn, ppn, n, perm);
    var m := MapRange(mem, pt, va, pa, sz, perm);
    if m.Some? {
      var x := PageNumber(a);
      MapPagesCorrect(mem, pt, -1, 0, vpn, ppn, n, perm, x);
      assert va <= a < va + sz <==> vpn <= x < vpn + n;
      if va <= a < va + sz {
        assert PageNumber(pa + (a - va)) == ppn + (x - vpn);
        assert PageOffset(pa + (a - va)) == PageOffset(a);
      }
    }
  }
}
