/** What filling and clearing one own range does to the set of represented segments. */
module MaptPieces {
  import opened Basics
  import opened MaptModel
  import opened MaptInv
  import opened MaptUpdates
  import opened MaptGrid

  // ---------------------------------------------------------------- steps that keep every piece

  predicate SameOwn(m: Node, n: Node) {
    && m.seg == n.seg && m.base == n.base && m.limit == n.limit && m.perm == n.perm && m.eBit == n.eBit
    && m.check == n.check && m.nonce == n.nonce && m.tok0 == n.tok0 && m.tok1 == n.tok1
  }

  /** The in-use node `(id, i)` of `tb` is in use in `tb'`, at the same place, with the same range. */
  predicate Kept(tb: Table, tb': Table, id: nat, i: nat) {
    && IsNode(tb', id, i) && InUse(tb'.fb, N(tb', id, i)) && SameOwn(N(tb', id, i), N(tb, id, i))
    && Start(tb', id, i) == Start(tb, id, i) && Stop(tb', id, i) == Stop(tb, id, i)
    && Lv(tb', id) == Lv(tb, id) && Pfx(tb', id) == Pfx(tb, id)
  }

  /** Every piece of `tb` other than the one of node `(id, i)` is a piece of `tb'`. */
  ghost predicate KeepsBut(tb: Table, tb': Table, id: nat, i: nat) {
    forall jd: nat, j: nat :: IsNode(tb, jd, j) && InUse(tb.fb, N(tb, jd, j)) && !(jd == id && j == i) ==>
      Kept(tb, tb', jd, j)
  }

  ghost predicate Keeps(tb: Table, tb': Table) {
    forall jd: nat, j: nat :: IsNode(tb, jd, j) && InUse(tb.fb, N(tb, jd, j)) ==> Kept(tb, tb', jd, j)
  }

  lemma KeptOwn(tb: Table, tb': Table, id: nat, i: nat, x: nat)
    requires Keeps(tb, tb') && Own(tb, id, i, x)
    ensures Own(tb', id, i, x) && Start(tb', id, i) == Start(tb, id, i) && Stop(tb', id, i) == Stop(tb, id, i)
            && Lv(tb', id) == Lv(tb, id) && Pfx(tb', id) == Pfx(tb, id)
  {
    hide InUse, N, EntryBase;
    assert Kept(tb, tb', id, i);
  }

  lemma PiecesSame(tb: Table, tb': Table, live: Live)
    requires Pieces(tb, live) && Highest(tb, live) && Keeps(tb, tb') && Keeps(tb', tb)
    ensures Pieces(tb', live) && Highest(tb', live)
  {
    hide InUse, N, EntryBase, Start, Stop, BlockSpan, LiveOk, Lv, Pfx;
    PiecesOkSame(tb, tb', live);
    CoveredSame(tb, tb', live);
    forall x, id, i | Own(tb', id, i, x)
      ensures Own(tb, id, i, x) && Start(tb', id, i) == Start(tb, id, i) && Stop(tb', id, i) == Stop(tb, id, i)
              && Lv(tb', id) == Lv(tb, id) && Pfx(tb', id) == Pfx(tb, id)
    {
      KeptOwn(tb', tb, id, i, x);
    }
    hide Own, Keeps, PiecesOk, Covered;
  }

  lemma PiecesOkSame(tb: Table, tb': Table, live: Live)
    requires PiecesOk(tb, live) && Keeps(tb', tb)
    ensures PiecesOk(tb', live)
  {
    hide InUse, N, EntryBase, Start, Stop;
    forall id, i | IsNode(tb', id, i) && InUse(tb'.fb, N(tb', id, i))
      ensures N(tb', id, i).seg in live
      ensures PieceOk(N(tb', id, i), live[N(tb', id, i).seg], Start(tb', id, i), Stop(tb', id, i))
    {
      assert Kept(tb', tb, id, i);
    }
  }

  lemma CoveredSame(tb: Table, tb': Table, live: Live)
    requires Covered(tb, live) && Keeps(tb, tb')
    ensures Covered(tb', live)
  {
    hide InUse, N, EntryBase, Start, Stop, Own, Keeps;
    forall x, a | x in live && Within(live[x], a) ensures HeldAt(tb', x, a) {
      var id, i :| Holds(tb, id, i, x, a);
      KeptOwn(tb, tb', id, i, x);
      assert Holds(tb', id, i, x, a);
    }
  }

  // ---------------------------------------------------------------- segments that are partly there

  /** The live segments with the part `[g, f)` of segment `s`, recorded under `name`. */
  function Part(live: Live, name: nat, s: Seg, g: nat, f: nat): Live {
    if g < f then live[name := s.(lo := g, hi := f - 1)] else live
  }

  /** `s` is a new segment: inside the address space, page aligned, disjoint from the live ones. */
  ghost predicate Fits(live: Live, name: nat, s: Seg) {
    && name !in live && s.lo <= s.hi < ADDRESSES && s.lo % PAGE == 0 && LiveOk(live)
    && forall x :: x in live ==> Disjoint(live[x], s)
  }

  lemma PartOk(live: Live, name: nat, s: Seg, g: nat, f: nat)
    requires Fits(live, name, s) && s.lo <= g && f <= s.hi + 1 && (g < f ==> g % PAGE == 0)
    ensures LiveOk(Part(live, name, s, g, f))
  {}

  ghost predicate SpansBefore(tb: Table, name: nat, f: nat) {
    forall id, i :: Own(tb, id, i, name) ==> Stop(tb, id, i) <= f
  }

  /** Node `(id, i)` was free for `s` and now holds the part of `s` in its span, from `f` on. */
  ghost predicate FilledAt(tb: Table, tb': Table, name: nat, s: Seg, id: nat, i: nat, f: nat) {
    && IsNode(tb, id, i) && !InUse(tb.fb, N(tb, id, i)) && Own(tb', id, i, name) && AttrOk(N(tb', id, i), s)
    && Start(tb', id, i) == Start(tb, id, i) && Stop(tb', id, i) == Stop(tb, id, i)
    && Start(tb, id, i) + N(tb', id, i).base == f
    && Start(tb, id, i) + N(tb', id, i).limit + 1 == Min(Stop(tb, id, i), s.hi + 1)
    && f == Max(Start(tb, id, i), s.lo) && f < Stop(tb, id, i) && f <= s.hi
    && Lv(tb', id) == Lv(tb, id) && Pfx(tb', id) == Pfx(tb, id)
    && KeepsBut(tb, tb', id, i) && KeepsBut(tb', tb, id, i)
  }

  lemma FillNone(tb: Table, live: Live, name: nat, s: Seg, f: nat)
    requires PiecesOk(tb, Part(live, name, s, s.lo, f)) && name !in live && f <= s.lo
    ensures forall id, i :: !Own(tb, id, i, name)
  {
    hide InUse, N, EntryBase, Start, Stop, PieceOk;
  }

  lemma FillPiecesOk(tb: Table, tb': Table, live: Live, name: nat, s: Seg, id: nat, i: nat, f: nat)
    requires Fits(live, name, s) && s.lo <= f && FilledAt(tb, tb', name, s, id, i, f)
    requires PiecesOk(tb, Part(live, name, s, s.lo, f)) && SpansBefore(tb, name, f)
    ensures PiecesOk(tb', Part(live, name, s, s.lo, Min(Stop(tb, id, i), s.hi + 1)))
  {
    hide InUse, N, EntryBase, Start, Stop, LiveOk;
    var live' := Part(live, name, s, s.lo, Min(Stop(tb, id, i), s.hi + 1));
    forall jd, j | IsNode(tb', jd, j) && InUse(tb'.fb, N(tb', jd, j))
      ensures N(tb', jd, j).seg in live'
      ensures PieceOk(N(tb', jd, j), live'[N(tb', jd, j).seg], Start(tb', jd, j), Stop(tb', jd, j))
    {
      FillPieceOk(tb, tb', live, name, s, id, i, f, jd, j);
    }
  }

  lemma FillPieceOk(tb: Table, tb': Table, live: Live, name: nat, s: Seg, id: nat, i: nat, f: nat, jd: nat, j: nat)
    requires Fits(live, name, s) && s.lo <= f && FilledAt(tb, tb', name, s, id, i, f)
    requires PiecesOk(tb, Part(live, name, s, s.lo, f)) && SpansBefore(tb, name, f)
    requires IsNode(tb', jd, j) && InUse(tb'.fb, N(tb', jd, j))
    ensures var live' := Part(live, name, s, s.lo, Min(Stop(tb, id, i), s.hi + 1)); var n := N(tb', jd, j);
            n.seg in live' && PieceOk(n, live'[n.seg], Start(tb', jd, j), Stop(tb', jd, j))
  {
    hide InUse, N, EntryBase, Start, Stop, LiveOk;
    if !(jd == id && j == i) {
      assert Kept(tb', tb, jd, j);
      hide KeepsBut;
      var n := N(tb, jd, j);
      assert PieceOk(n, Part(live, name, s, s.lo, f)[n.seg], Start(tb, jd, j), Stop(tb, jd, j));
      if n.seg == name {
        assert Own(tb, jd, j, name);
      }
    }
  }

  lemma FillCovered(tb: Table, tb': Table, live: Live, name: nat, s: Seg, id: nat, i: nat, f: nat)
    requires Fits(live, name, s) && s.lo <= f && FilledAt(tb, tb', name, s, id, i, f)
    requires Covered(tb, Part(live, name, s, s.lo, f))
    ensures Covered(tb', Part(live, name, s, s.lo, Min(Stop(tb, id, i), s.hi + 1)))
  {
    hide InUse, N, EntryBase, Start, Stop, LiveOk;
    var f' := Min(Stop(tb, id, i), s.hi + 1);
    var l, l' := Part(live, name, s, s.lo, f), Part(live, name, s, s.lo, f');
    forall x, a | x in l' && Within(l'[x], a) ensures HeldAt(tb', x, a) {
      if x == name && f <= a {
        assert Holds(tb', id, i, name, a);
      } else {
        assert x in l && Within(l[x], a);
        var jd, j :| Holds(tb, jd, j, x, a);
        assert Kept(tb, tb', jd, j);
        assert Holds(tb', jd, j, x, a);
      }
    }
  }

  /** The own nodes after filling are those before and the filled one. */
  lemma FillOwn(tb: Table, tb': Table, name: nat, s: Seg, id: nat, i: nat, f: nat, jd: nat, j: nat, x: nat)
    requires FilledAt(tb, tb', name, s, id, i, f) && Own(tb', jd, j, x)
    ensures (jd == id && j == i && x == name) || (Own(tb, jd, j, x) && !(jd == id && j == i))
    ensures Start(tb', jd, j) == Start(tb, jd, j) && Stop(tb', jd, j) == Stop(tb, jd, j)
            && Lv(tb', jd) == Lv(tb, jd) && Pfx(tb', jd) == Pfx(tb, jd)
  {
    hide InUse, N, EntryBase, Start, Stop;
    if !(jd == id && j == i) {
      assert Kept(tb', tb, jd, j);
    }
  }

  lemma FillApart(tb: Table, tb': Table, name: nat, s: Seg, id: nat, i: nat, f: nat)
    requires FilledAt(tb, tb', name, s, id, i, f) && Apart(tb) && SpansBefore(tb, name, f)
    requires f <= s.lo ==> forall jd, j :: !Own(tb, jd, j, name)
    ensures Apart(tb')
    ensures Stop(tb, id, i) <= s.hi + 1 ==> SpansBefore(tb', name, Stop(tb, id, i))
  {
    hide InUse, N, EntryBase, Start, Stop, Own;
    forall jd, j, x | Own(tb', jd, j, x)
      ensures (jd == id && j == i && x == name) || (Own(tb, jd, j, x) && !(jd == id && j == i))
      ensures Start(tb', jd, j) == Start(tb, jd, j) && Stop(tb', jd, j) == Stop(tb, jd, j)
    {
      FillOwn(tb, tb', name, s, id, i, f, jd, j, x);
    }
    hide KeepsBut;
    forall jd, j | Own(tb, jd, j, name) ensures Stop(tb, jd, j) <= Start(tb, id, i) {}
  }

  lemma FillLow(tb: Table, tb': Table, live: Live, name: nat, s: Seg, id: nat, i: nat, f: nat)
    requires FilledAt(tb, tb', name, s, id, i, f) && Highest(tb, Part(live, name, s, s.lo, f))
    requires Low(tb, name, s.lo, s.hi)
    requires name !in live && s.lo <= f
    requires id != 0 ==> !(s.lo <= Pfx(tb, id) && Pfx(tb, id) + BlockSpan(Lv(tb, id)) - 1 <= s.hi)
    ensures Low(tb', name, s.lo, s.hi) && Highest(tb', Part(live, name, s, s.lo, Min(Stop(tb, id, i), s.hi + 1)))
  {
    hide InUse, N, EntryBase, Start, Stop, Own, BlockSpan, Lv, Pfx;
    var l, l' := Part(live, name, s, s.lo, f), Part(live, name, s, s.lo, Min(Stop(tb, id, i), s.hi + 1));
    forall jd, j, x | Own(tb', jd, j, x)
      ensures (jd == id && j == i && x == name) || Own(tb, jd, j, x)
      ensures Lv(tb', jd) == Lv(tb, jd) && Pfx(tb', jd) == Pfx(tb, jd)
    {
      FillOwn(tb, tb', name, s, id, i, f, jd, j, x);
    }
    hide KeepsBut;
    assert Low(tb', name, s.lo, s.hi);
    forall x | x in l' ensures Low(tb', x, l'[x].lo, l'[x].hi) {
      if x != name {
        assert Low(tb, x, l[x].lo, l[x].hi);
      }
    }
  }

  lemma FillPieces(tb: Table, tb': Table, live: Live, name: nat, s: Seg, id: nat, i: nat, f: nat)
    requires Fits(live, name, s) && s.lo <= f && FilledAt(tb, tb', name, s, id, i, f)
    requires Pieces(tb, Part(live, name, s, s.lo, f)) && Highest(tb, Part(live, name, s, s.lo, f))
    requires SpansBefore(tb, name, f) && Low(tb, name, s.lo, s.hi)
    requires id != 0 ==> !(s.lo <= Pfx(tb, id) && Pfx(tb, id) + BlockSpan(Lv(tb, id)) - 1 <= s.hi)
    ensures var l' := Part(live, name, s, s.lo, Min(Stop(tb, id, i), s.hi + 1));
            Pieces(tb', l') && Highest(tb', l') && Low(tb', name, s.lo, s.hi)
    ensures Stop(tb, id, i) <= s.hi + 1 ==> SpansBefore(tb', name, Stop(tb, id, i))
  {
    hide InUse, N, EntryBase, Start, Stop, Own, BlockSpan, PiecesOk, Covered, Apart, Highest, Low, KeepsBut, LiveOk,
         Lv, Pfx;
    if f <= s.lo {
      FillNone(tb, live, name, s, f);
    }
    FillPiecesOk(tb, tb', live, name, s, id, i, f);
    FillCovered(tb, tb', live, name, s, id, i, f);
    FillApart(tb, tb', name, s, id, i, f);
    FillLow(tb, tb', live, name, s, id, i, f);
    PartOk(live, name, s, s.lo, Min(Stop(tb, id, i), s.hi + 1));
  }

  // ---------------------------------------------------------------- clearing one piece

  /** Node `(id, i)` held the first addresses, from `g` on, of `[g, f)` and no longer does. */
  ghost predicate ClearedAt(tb: Table, tb': Table, name: nat, id: nat, i: nat, g: nat) {
    && Own(tb, id, i, name) && Spans(tb, id, i, g)
    && !(IsNode(tb', id, i) && InUse(tb'.fb, N(tb', id, i)))
    && KeepsBut(tb, tb', id, i) && Keeps(tb', tb)
  }

  /** Another piece of the segment lies wholly after the span of `(id, i)`. */
  lemma LaterPiece(tb: Table, live: Live, name: nat, s: Seg, g: nat, f: nat, id: nat, i: nat, jd: nat, j: nat)
    requires name !in live && PiecesOk(tb, Part(live, name, s, g, f)) && Apart(tb)
    requires Own(tb, id, i, name) && Spans(tb, id, i, g) && Own(tb, jd, j, name) && !(jd == id && j == i)
    ensures Stop(tb, id, i) <= Start(tb, jd, j) < f
  {
    hide InUse, N, EntryBase, Start, Stop;
    var n := N(tb, jd, j);
    assert n.seg == name && PieceOk(n, Part(live, name, s, g, f)[name], Start(tb, jd, j), Stop(tb, jd, j));
  }

  lemma ClearPieceOk(tb: Table, tb': Table, live: Live, name: nat, s: Seg, g: nat, f: nat, id: nat, i: nat, jd: nat,
                     j: nat)
    requires name !in live && g < f && PiecesOk(tb, Part(live, name, s, g, f)) && Apart(tb)
    requires ClearedAt(tb, tb', name, id, i, g) && IsNode(tb', jd, j) && InUse(tb'.fb, N(tb', jd, j))
    ensures var live' := Part(live, name, s, Min(Stop(tb, id, i), f), f); var n := N(tb', jd, j);
            n.seg in live' && PieceOk(n, live'[n.seg], Start(tb', jd, j), Stop(tb', jd, j))
  {
    hide InUse, N, EntryBase, Start, Stop;
    assert Kept(tb', tb, jd, j);
    hide KeepsBut, Keeps;
    var n := N(tb, jd, j);
    assert PieceOk(n, Part(live, name, s, g, f)[n.seg], Start(tb, jd, j), Stop(tb, jd, j));
    if n.seg == name {
      LaterPiece(tb, live, name, s, g, f, id, i, jd, j);
    }
  }

  lemma ClearCovered(tb: Table, tb': Table, live: Live, name: nat, s: Seg, g: nat, f: nat, id: nat, i: nat)
    requires name !in live && g < f && Covered(tb, Part(live, name, s, g, f)) && ClearedAt(tb, tb', name, id, i, g)
    ensures Covered(tb', Part(live, name, s, Min(Stop(tb, id, i), f), f))
  {
    hide InUse, N, EntryBase, Start, Stop;
    var l, l' := Part(live, name, s, g, f), Part(live, name, s, Min(Stop(tb, id, i), f), f);
    forall x, a | x in l' && Within(l'[x], a) ensures HeldAt(tb', x, a) {
      assert x in l && Within(l[x], a);
      var jd, j :| Holds(tb, jd, j, x, a);
      assert Kept(tb, tb', jd, j);
      assert Holds(tb', jd, j, x, a);
    }
  }

  lemma ClearLow(tb: Table, tb': Table, live: Live, name: nat, s: Seg, g: nat, f: nat, g': nat)
    requires Keeps(tb', tb) && Highest(tb, Part(live, name, s, g, f)) && name !in live && g <= g'
    ensures Highest(tb', Part(live, name, s, g', f))
  {
    hide InUse, N, EntryBase, Start, Stop, Own, BlockSpan, Lv, Pfx;
    var l, l' := Part(live, name, s, g, f), Part(live, name, s, g', f);
    forall jd, j, x | Own(tb', jd, j, x)
      ensures Own(tb, jd, j, x) && Lv(tb', jd) == Lv(tb, jd) && Pfx(tb', jd) == Pfx(tb, jd)
    {
      KeptOwn(tb', tb, jd, j, x);
    }
    hide Keeps;
    forall x | x in l' ensures Low(tb', x, l'[x].lo, l'[x].hi) {
      assert Low(tb, x, l[x].lo, l[x].hi);
    }
  }

  lemma FewerApart(tb: Table, tb': Table)
    requires Keeps(tb', tb) && Apart(tb)
    ensures Apart(tb')
  {
    hide InUse, N, EntryBase, Start, Stop, Own;
    forall jd, j, x | Own(tb', jd, j, x)
      ensures Own(tb, jd, j, x) && Start(tb', jd, j) == Start(tb, jd, j) && Stop(tb', jd, j) == Stop(tb, jd, j)
    {
      KeptOwn(tb', tb, jd, j, x);
    }
    hide Keeps;
  }

  lemma ClearPieces(tb: Table, tb': Table, live: Live, name: nat, s: Seg, g: nat, f: nat, id: nat, i: nat)
    requires Fits(live, name, s) && s.lo <= g < f <= s.hi + 1 && ClearedAt(tb, tb', name, id, i, g)
    requires Pieces(tb, Part(live, name, s, g, f)) && Highest(tb, Part(live, name, s, g, f))
    requires Stop(tb, id, i) % PAGE == 0
    ensures var l' := Part(live, name, s, Min(Stop(tb, id, i), f), f); Pieces(tb', l') && Highest(tb', l')
  {
    hide InUse, N, EntryBase, Start, Stop, Own, BlockSpan, Covered, Apart, Highest, Low, KeepsBut, Keeps, LiveOk, Lv,
         Pfx,
         PieceOk;
    var l' := Part(live, name, s, Min(Stop(tb, id, i), f), f);
    forall jd, j | IsNode(tb', jd, j) && InUse(tb'.fb, N(tb', jd, j))
      ensures N(tb', jd, j).seg in l'
      ensures PieceOk(N(tb', jd, j), l'[N(tb', jd, j).seg], Start(tb', jd, j), Stop(tb', jd, j))
    {
      ClearPieceOk(tb, tb', live, name, s, g, f, id, i, jd, j);
    }
    ClearCovered(tb, tb', live, name, s, g, f, id, i);
    FewerApart(tb, tb');
    ClearLow(tb, tb', live, name, s, g, f, Min(Stop(tb, id, i), f));
    PartOk(live, name, s, Min(Stop(tb, id, i), f), f);
  }
}
