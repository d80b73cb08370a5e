/** The batch of commands, the two invalidation loops that fill it, and what reaches the command queue. */
module TlbiFlush {
  import opened Arith
  import opened Basics
  import opened TlbiRange

  /** One call of ummu_mcmdq_issue_cmdlist. */
  datatype Issue = Issue(cmds: seq<Tlbi>, sync: bool)

  function Flat(lists: seq<Issue>): seq<Tlbi> {
    if lists == [] then [] else Flat(lists[..|lists| - 1]) + lists[|lists| - 1].cmds
  }

  lemma FlatAppend(lists: seq<Issue>, x: Issue)
    ensures Flat(lists + [x]) == Flat(lists) + x.cmds
  {
    assert (lists + [x])[..|lists|] == lists;
  }

  /** Full lists without a sync. */
  predicate AllFull(lists: seq<Issue>) {
    forall i :: 0 <= i < |lists| ==> |lists[i].cmds| == BATCH_ENTRIES && !lists[i].sync
  }

  class Batch {
    const buf: array<Tlbi>
    var num: nat
    var issued: seq<Issue>         // what the command queue has been given

    ghost predicate Valid()
      reads this, buf
    {
      buf.Length == BATCH_ENTRIES && num <= BATCH_ENTRIES
    }

    /** Everything added so far, in order. */
    ghost function All(): seq<Tlbi>
      requires Valid()
      reads this, buf
    {
      Flat(issued) + buf[..num]
    }

    constructor ()
      ensures Valid() && All() == [] && issued == [] && fresh(buf)
    {
      buf := new Tlbi[BATCH_ENTRIES](_ => Tlbi(0, 0, 0));
      num, issued := 0, [];
    }

    /** ummu_mcmdq_batch_add: a full buffer is issued first, without a sync. */
    method Add(c: Tlbi)
      requires Valid() && AllFull(issued)
      modifies this, buf
      ensures Valid() && All() == old(All()) + [c] && AllFull(issued)
    {
      if num == BATCH_ENTRIES {
        FlatAppend(issued, Issue(buf[..num], false));
        issued := issued + [Issue(buf[..num], false)];
        num := 0;
      }
      ghost var was := buf[..num];
      buf[num] := c;
      num := num + 1;
      assert buf[..num] == was + [c];
    }

    /** ummu_mcmdq_batch_submit: what is left goes out with the one sync. */
    method Submit()
      requires Valid() && AllFull(issued)
      modifies this
      ensures Flat(issued) == old(All()) && |issued| > 0 && issued[|issued| - 1].sync
      ensures |issued[|issued| - 1].cmds| <= BATCH_ENTRIES
      ensures AllFull(issued[..|issued| - 1])
    {
      FlatAppend(issued, Issue(buf[..num], true));
      ghost var was := issued;
      issued := issued + [Issue(buf[..num], true)];
      assert issued[..|issued| - 1] == was;
    }
  }

  /** The commands of one flush: in order, in full lists but the last, which alone has a sync. */
  predicate Delivered(lists: seq<Issue>, cmds: seq<Tlbi>) {
    && Flat(lists) == cmds && |lists| > 0 && AllFull(lists[..|lists| - 1])
    && lists[|lists| - 1].sync && |lists[|lists| - 1].cmds| <= BATCH_ENTRIES
  }

  predicate CmdOk(cap: nat, c: Tlbi) {
    c.scale <= cap && c.num < NUM_MAX
  }

  predicate CmdsOk(cap: nat, cmds: seq<Tlbi>) {
    forall i :: 0 <= i < |cmds| ==> CmdOk(cap, cmds[i])
  }

  function Ceil5(n: nat): nat { (n + 4) / 5 }

  /** The promised bound on the number of commands for `pages` pages. */
  function Bound(pages: nat, cap: nat): nat {
    Ceil5(cap) + 1 + 2 * Quo(pages, cap + 5)
  }

  /** Where the loop stands: `k` commands were below the cap and `j` at it; `p` pages are left. */
  predicate Progress(pages: nat, cap: nat, p: nat, k: nat, j: nat) {
    && k <= Ceil5(cap)
    && ((j == 0 && Whole(p, 5 * k) && Quo(p, cap + 5) == Quo(pages, cap + 5))
        || (Whole(p, cap) && j + Top(Quo(p, cap)) <= 1 + 2 * Quo(pages, cap + 5)))
  }

  lemma ProgressStart(pages: nat, cap: nat)
    ensures Progress(pages, cap, pages, 0, 0)
  {
    assert Pow2(0) == 1;
  }

  lemma ProgressBound(pages: nat, cap: nat, p: nat, k: nat, j: nat)
    requires Progress(pages, cap, p, k, j)
    ensures k + j <= Bound(pages, cap)
  {
    hide Pow2, Top, Quo, Whole;
  }

  function Bytes(gs: nat, p: nat): nat { p * Pow2(gs) }

  /** The scale leaves the small phase for good once the cap divides the pages left. */
  lemma ProgressStep(pages: nat, cap: nat, p: nat, k: nat, j: nat, f: nat, r: nat)
    requires Progress(pages, cap, p, k, j) && p > 0 && IsFfs(p, f)
    requires r == p - Pages(Num(Quo(p, Scale(f, cap))), Scale(f, cap))
    ensures if f < cap then Progress(pages, cap, r, k + 1, j) else Progress(pages, cap, r, k, j + 1)
  {
    hide Num, Pow2, Top, IsFfs, Pages, Quo, Whole;
    if f < cap {
      if Whole(p, cap) {
        FfsAtLeast(p, f, cap);
      }
      SmallStep(p, f, cap, k, r);
    } else {
      LargeStep(p, f, cap, r);
      TopStart(p, cap);
    }
  }

  /** One round of the loop: the command fits, and what it covers and what is left add up. */
  lemma Round(gs: nat, cap: nat, p: nat, f: nat, s: nat, n: nat, addr: nat)
    requires p > 0 && IsFfs(p, f) && s == Scale(f, cap) && n == Num(Quo(p, s))
    ensures n >= 1 && 1 <= Pages(n, s) <= p && CmdOk(cap, Tlbi(addr, s, n - 1))
    ensures Length(gs, Tlbi(addr, s, n - 1)) == Bytes(gs, Pages(n, s))
    ensures Bytes(gs, Pages(n, s)) + Bytes(gs, p - Pages(n, s)) == Bytes(gs, p)
  {
    hide Pow2, IsFfs, Num, Quo;
    StepTakes(p, f, cap);
    Pow2Add(s, gs);
    MulAssoc(n, Pow2(s), Pow2(gs));
    MulSub(p, n * Pow2(s), Pow2(gs));
    MulLe(Pow2(s), 1, n);
  }

  lemma MulSub(p: nat, m: nat, g: nat)
    requires m <= p
    ensures (p - m) * g == p * g - m * g
  {}

  /** How a flush ends: properly, in a call of __ffs(0), whose result is undefined, or not at all. */
  datatype Outcome = Done | Undefined | Endless

  /** The range part of __ummu_tlbi_range. If the end of the range does not fit in 64 bits nothing is
      invalidated. Otherwise the commands tile the whole pages of the range, and for a part of a page that
      is left over the loop goes on without any page. */
  method TlbiRangeLoop(iova: nat, size: nat, gs: nat, limited: bool)
    returns (out: Outcome, issued: seq<Issue>, ghost cmds: seq<Tlbi>)
    requires iova < U64 && 0 < size < U64
    ensures out == if iova + size < U64 && size % Pow2(gs) != 0 then Undefined else Done
    ensures out == Done ==> Delivered(issued, cmds)
    ensures var cap := if limited then SCALE_LIMIT else SCALE_MAX;
            CmdsOk(cap, cmds) && |cmds| <= Bound(Quo(size, gs), cap)
    ensures if iova + size < U64 then Tiles(gs, cmds, iova, iova + size - size % Pow2(gs)) else cmds == []
  {
    hide Pow2, Bound, Length;
    var cap := if limited then SCALE_LIMIT else SCALE_MAX;
    var batch := new Batch();
    var rgEnd := (iova + size) % U64;
    var pages := size / Pow2(gs);
    DivMod(size, Pow2(gs));
    out, issued, cmds := RangeCommands(batch, iova, rgEnd, pages, size % Pow2(gs), gs, cap);
  }

  method RangeCommands(batch: Batch, start: nat, end: nat, pages: nat, rest: nat, gs: nat, cap: nat)
    returns (out: Outcome, issued: seq<Issue>, ghost cmds: seq<Tlbi>)
    requires batch.Valid() && batch.issued == [] && batch.num == 0
    requires (end <= start || start + Bytes(gs, pages) + rest == end)
    modifies batch, batch.buf
    ensures out == if start < end && rest > 0 then Undefined else Done
    ensures (out == Done ==> Delivered(issued, cmds)) && CmdsOk(cap, cmds) && |cmds| <= Bound(pages, cap)
    ensures if end <= start then cmds == [] else Tiles(gs, cmds, start, end - rest)
  {
    hide Pow2, Num, IsFfs, Length, Scale, Progress, Bound, Bytes, Pages, CmdOk, Quo;
    var rgStart: nat, p: nat := start, pages;
    ghost var k: nat, j: nat := 0, 0;
    ProgressStart(pages, cap);
    cmds := [];
    while rgStart < end
      invariant batch.Valid() && AllFull(batch.issued) && batch.All() == cmds
      invariant if end <= start then cmds == [] && rgStart == start else rgStart + Bytes(gs, p) + rest == end
      invariant Tiles(gs, cmds, start, rgStart) && CmdsOk(cap, cmds)
      invariant |cmds| == k + j && Progress(pages, cap, p, k, j)
      decreases p
    {
      NothingLeft(gs, p);
      if p == 0 {
        ProgressBound(pages, cap, p, k, j);
        return Undefined, batch.issued, cmds;
      }
      var f := Ffs(p);
      var scale := Scale(f, cap);
      var num := Num(Quo(p, scale));
      Round(gs, cap, p, f, scale, num, rgStart);
      ProgressStep(pages, cap, p, k, j, f, p - Pages(num, scale));
      var c := Tlbi(rgStart, scale, num - 1);
      batch.Add(c);
      ghost var was := cmds;
      cmds := cmds + [c];
      assert cmds[..|cmds| - 1] == was;
      rgStart := rgStart + Bytes(gs, Pages(num, scale));
      p := p - Pages(num, scale);
      if f < cap {
        k := k + 1;
      } else {
        j := j + 1;
      }
    }
    NothingLeft(gs, p);
    ProgressBound(pages, cap, p, k, j);
    batch.Submit();
    out, issued := Done, batch.issued;
  }

  lemma NothingLeft(gs: nat, p: nat)
    ensures Bytes(gs, p) > 0 <==> p > 0
  {
    if p > 0 {
      MulLe(Pow2(gs), 1, p);
    }
  }

  /** Granules that the simple loop takes for a size. */
  function Granules(g: nat, size: nat): nat { (size + Pow2(g) - 1) / Pow2(g) }

  /** ummu_range_tlbi_nofeat: one command for every granule, without scale and num. It stops only before the
      address passes 2^64. */
  method PerGranule(iova: nat, size: nat, g: nat) returns (out: Outcome, issued: seq<Issue>, ghost cmds: seq<Tlbi>)
    requires iova < U64 && 0 < size < U64
    ensures out == if iova + size < U64 <= iova + Bytes(g, Granules(g, size)) then Endless else Done
    ensures out == Done ==> Delivered(issued, cmds) && CmdsOk(0, cmds)
    ensures out == Done ==>
              if iova + size >= U64 then cmds == []
              else |cmds| == Granules(g, size) && Tiles(g, cmds, iova, iova + Bytes(g, Granules(g, size)))
  {
    hide Pow2, Bytes, Length, Delivered, Granules, Tiles, CmdsOk;
    var batch := new Batch();
    out, issued, cmds := GranuleCommands(batch, iova, (iova + size) % U64, g);
  }

  method GranuleCommands(batch: Batch, start: nat, end: nat, g: nat)
    returns (out: Outcome, issued: seq<Issue>, ghost cmds: seq<Tlbi>)
    requires batch.Valid() && batch.issued == [] && batch.num == 0 && start < U64 && end < U64
    modifies batch, batch.buf
    ensures out == if start < end && start + Bytes(g, Granules(g, end - start)) >= U64 then Endless else Done
    ensures out == Done ==> Delivered(issued, cmds) && CmdsOk(0, cmds)
    ensures start >= end ==> cmds == []
    ensures start < end && out == Done ==> |cmds| == Granules(g, end - start)
    ensures start < end && out == Done ==> Tiles(g, cmds, start, start + Bytes(g, Granules(g, end - start)))
  {
    hide Pow2, Bytes, Length, Granules;
    assert Tiles(g, [], start, start) && CmdsOk(0, []);
    cmds := [];
    var rgStart, step := start, Pow2(g);
    ghost var size := if start < end then end - start else 0;
    ghost var n := Granules(g, size);
    GranuleStart(g, size);
    hide Tiles, CmdsOk;
    while rgStart < end
      invariant batch.Valid() && AllFull(batch.issued) && batch.All() == cmds && CmdsOk(0, cmds)
      invariant rgStart == start + Bytes(g, |cmds|) < U64 && |cmds| <= n && Tiles(g, cmds, start, rgStart)
      decreases end - rgStart
    {
      GranuleStep(g, size, |cmds|, rgStart);
      var c := Tlbi(rgStart, 0, 0);
      batch.Add(c);
      OneMore(g, cmds, c, start);
      cmds := cmds + [c];
      if rgStart + step >= U64 {
        return Endless, batch.issued, cmds;
      }
      rgStart := rgStart + step;
    }
    GranuleEnd(g, size, |cmds|);
    batch.Submit();
    out, issued := Done, batch.issued;
  }

  lemma OneMore(g: nat, cmds: seq<Tlbi>, c: Tlbi, a: nat)
    requires Tiles(g, cmds, a, c.addr) && CmdsOk(0, cmds) && c.scale == 0 && c.num == 0
    ensures Tiles(g, cmds + [c], a, c.addr + Length(g, c)) && CmdsOk(0, cmds + [c])
  {
    hide Length;
    assert (cmds + [c])[..|cmds|] == cmds;
  }

  lemma GranuleStart(g: nat, size: nat)
    ensures Bytes(g, 0) == 0 && (size > 0 <==> Granules(g, size) > 0)
  {
    hide Pow2;
    if size > 0 {
      DivMod(size + Pow2(g) - 1, Pow2(g));
    }
  }

  /** `n` granules reach the size exactly from `Granules` on. */
  lemma GranulesReach(g: nat, size: nat, n: nat)
    ensures Bytes(g, n) >= size <==> n >= Granules(g, size)
  {
    hide Pow2;
    var w, m := Pow2(g), Granules(g, size);
    DivMod(size + w - 1, w);
    if n >= m {
      MulLe(w, m, n);
    } else {
      MulLe(w, n, m - 1);
      assert w * (m - 1) == w * m - w;
    }
  }

  lemma GranuleStep(g: nat, size: nat, n: nat, addr: nat)
    ensures Bytes(g, n) < size ==> n < Granules(g, size) && Bytes(g, n + 1) <= Bytes(g, Granules(g, size))
    ensures Bytes(g, n + 1) == Bytes(g, n) + Pow2(g)
    ensures Length(g, Tlbi(addr, 0, 0)) == Pow2(g)
  {
    GranulesReach(g, size, n);
    hide Pow2, Granules;
    if Bytes(g, n) < size {
      MulLe(Pow2(g), n + 1, Granules(g, size));
    }
  }

  lemma GranuleEnd(g: nat, size: nat, n: nat)
    ensures n <= Granules(g, size) && Bytes(g, n) >= size ==> n == Granules(g, size)
  {
    GranulesReach(g, size, n);
  }

  /** Why it does not stop after passing 2^64: it goes on from an address below the end, and from there comes
      back, by whole granules, to where it wrapped. */
  lemma GoesRound(iova: nat, size: nat, g: nat)
    requires g < 64 && iova + size < U64 <= iova + Bytes(g, Granules(g, size)) && size > 0
    ensures var last := iova + Bytes(g, Granules(g, size) - 1); var again := (last + Pow2(g)) % U64;
            && Granules(g, size) > 0 && last < iova + size && again < iova + size
            && exists m: nat :: again + Bytes(g, m) == last
  {
    hide Pow2, Granules;
    GranuleStart(g, size);
    var n := Granules(g, size);
    GranulesReach(g, size, n - 1);
    GranuleStep(g, size, n - 1, 0);
    Powers64(g);
    TurnEnds(iova + size, iova + Bytes(g, n - 1), g, Pow2(64 - g));
  }

  lemma TurnEnds(end: nat, last: nat, g: nat, m: nat)
    requires Pow2(g) * m == U64 && m >= 2 && last < end < U64 <= last + Pow2(g)
    ensures var again := (last + Pow2(g)) % U64; again < end && exists k: nat :: again + Bytes(g, k) == last
  {
    hide Pow2;
    OneTurn(end, last, Pow2(g), m);
    assert (last + Pow2(g)) % U64 + Bytes(g, m - 1) == last;
  }

  lemma Powers64(g: nat)
    requires g < 64
    ensures Pow2(g) * Pow2(64 - g) == U64 && Pow2(64 - g) >= 2
  {
    Pow2Literal();
    Pow2Add(32, 32);
    Pow2Add(g, 64 - g);
    Pow2Monotone(1, 64 - g);
    assert Pow2(1) == 2;
  }

  lemma OneTurn(end: nat, last: nat, w: nat, m: nat)
    requires w * m == U64 && m >= 2 && last < end < U64 <= last + w
    ensures (last + w) % U64 == last + w - U64 < end && (m - 1) * w == U64 - w
  {
    MulLe(w, 2, m);
    assert (m - 1) * w == m * w - w;
  }

  /** __ummu_tlbi_range: it ends with every address of the range invalidated, and no other, exactly if the
      range is empty, or its end fits in 64 bits and its size is a whole number of pages or granules. */
  method FlushRange(iova: nat, size: nat, gs: nat, g: nat, feature: bool, limited: bool)
    returns (out: Outcome, issued: seq<Issue>, ghost cmds: seq<Tlbi>)
    requires iova < U64 && size < U64
    ensures iova == U64 - 1 || size == 0 ==> out == Done && issued == [] && cmds == []
    ensures iova != U64 - 1 && size != 0 && out == Done ==> Delivered(issued, cmds)
    ensures var unit := if feature then gs else g;
            out == Done && Tiles(unit, cmds, iova, iova + size) <==>
            size == 0 || (iova + size < U64 && size % Pow2(unit) == 0)
  {
    hide Pow2, Bound, Length;
    if iova == U64 - 1 || size == 0 {
      return Done, [], [];
    }
    if !feature {
      out, issued, cmds := PerGranule(iova, size, g);
      WholeGranules(g, size);
      if out == Done && iova + size < U64 {
        EndsOnce(g, cmds, iova, iova + Bytes(g, Granules(g, size)), iova + size);
      }
    } else {
      out, issued, cmds := TlbiRangeLoop(iova, size, gs, limited);
    }
  }

  lemma WholeGranules(g: nat, size: nat)
    ensures Bytes(g, Granules(g, size)) == size <==> size % Pow2(g) == 0
  {
    hide Pow2;
    var w := Pow2(g);
    DivMod(size, w);
    var q := size / w;
    if size % w == 0 {
      DivModUnique(size + w - 1, w, q, w - 1);
    } else if Bytes(g, Granules(g, size)) == size {
      DivModUnique(size, w, Granules(g, size), 0);
    }
  }

  /** The commands of a tiling end at one place. */
  lemma {:induction false} EndsOnce(gs: nat, cmds: seq<Tlbi>, a: nat, b: nat, c: nat)
    requires Tiles(gs, cmds, a, b)
    ensures Tiles(gs, cmds, a, c) <==> c == b
  {
    hide Length;
  }

  /** With and without the range feature, at the granule of a page, the same addresses are invalidated. */
  lemma SameCover(gs: nat, range: seq<Tlbi>, single: seq<Tlbi>, a: nat, b: nat, x: nat)
    requires Tiles(gs, range, a, b) && Tiles(gs, single, a, b)
    ensures (exists i :: 0 <= i < |range| && CoversAddr(gs, range[i], x)) <==>
              (exists i :: 0 <= i < |single| && CoversAddr(gs, single[i], x))
  {
    hide Tiles, CoversAddr;
    TilesExact(gs, range, a, b, x);
    TilesExact(gs, single, a, b, x);
  }

  /** A range that ends at the top of the address space is missed: nothing is invalidated. */
  method TopOfSpaceMissed() returns (out: Outcome, issued: seq<Issue>, ghost cmds: seq<Tlbi>)
    ensures out == Done && cmds == [] && Delivered(issued, cmds) && !Tiles(12, cmds, U64 - 0x1000, U64)
  {
    assert Pow2(12) == 0x1000;
    hide Pow2;
    out, issued, cmds := TlbiRangeLoop(U64 - 0x1000, 0x1000, 12, false);
  }

  /** One byte less than two pages, up to the last byte but one of the address space: the simple loop does
      not stop. */
  method PartGranuleEndless() returns (out: Outcome, issued: seq<Issue>, ghost cmds: seq<Tlbi>)
    ensures out == Endless
  {
    assert Pow2(12) == 0x1000;
    hide Pow2;
    assert Granules(12, 0x1FFF) == 2;
    out, issued, cmds := PerGranule(U64 - 0x2000, 0x1FFF, 12);
  }

  /** get_minist_log2size_range: the smallest power of two that is not below the size. */
  method Log2Range(size: nat) returns (index: nat)
    requires size < U64
    ensures size <= Pow2(index) && (index > 0 ==> Pow2(index - 1) < size) && index <= 64
  {
    var rest := if size > 0 then size - 1 else 0;
    ghost var top := rest;
    index := 0;
    while rest > 0
      invariant rest == top / Pow2(index) && index <= 64
      invariant index > 0 ==> top >= Pow2(index - 1)
      invariant rest > 0 ==> index < 64
      decreases rest
    {
      HalfStep(top, index);
      rest := rest / 2;
      index := index + 1;
      if rest > 0 {
        Log2Fits(top, index);
      }
    }
    DivMod(top, Pow2(index));
  }

  lemma HalfStep(top: nat, k: nat)
    requires top / Pow2(k) > 0
    ensures top / Pow2(k) / 2 == top / Pow2(k + 1) && top >= Pow2(k)
  {
    DivDiv(top, Pow2(k), 2);
    DivMod(top, Pow2(k));
    MulLe(Pow2(k), 1, top / Pow2(k));
  }

  lemma Log2Fits(top: nat, k: nat)
    requires top < U64 && top / Pow2(k) > 0
    ensures k < 64
  {
    HalfStep(top, k);
    if k >= 64 {
      Pow2Monotone(64, k);
      Pow2Add(32, 32);
      Pow2Literal();
      assert false;
    }
  }
}
