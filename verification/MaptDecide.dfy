/** What the tests that filling and clearing make on a node say about the segments. */
module MaptDecide {
  import opened Basics
  import opened MaptModel
  import opened MaptInv
  import opened MaptUpdates
  import opened MaptGrid
  import opened MaptPieces

  // ---------------------------------------------------------------- filling

  /** A valid node where the rest of a new segment starts is shared with another segment. */
  lemma ValidForeign(tb: Table, live: Live, name: nat, s: Seg, id: nat, i: nat, f: nat) returns (x: nat)
    requires name !in live && Inv(tb, Part(live, name, s, s.lo, f), None, None) && SpansBefore(tb, name, f)
    requires IsNode(tb, id, i) && N(tb, id, i).valid && s.lo <= f && f == Max(Start(tb, id, i), s.lo)
    ensures x in live && live[x].lo < Stop(tb, id, i) && Start(tb, id, i) <= live[x].hi
  {
    hide InUse, N, EntryBase, Start, Stop, Shape, Links, Used, NonEmpty, Accounts, Covered, Apart, LiveOk, Highest;
    var jd, j := ValidHolds(tb, id, i);
    x := N(tb, jd, j).seg;
    var l := Part(live, name, s, s.lo, f);
    assert PieceOk(N(tb, jd, j), l[x], Start(tb, jd, j), Stop(tb, jd, j));
    assert Own(tb, jd, j, x);
  }

  /** So it is not inside the new segment, and it is not of the last level. */
  lemma ValidShared(tb: Table, live: Live, name: nat, s: Seg, id: nat, i: nat, f: nat)
    requires Fits(live, name, s) && Inv(tb, Part(live, name, s, s.lo, f), None, None) && SpansBefore(tb, name, f)
    requires IsNode(tb, id, i) && N(tb, id, i).valid && s.lo <= f <= s.hi && f == Max(Start(tb, id, i), s.lo)
    requires f < Stop(tb, id, i)
    ensures !(s.lo <= Start(tb, id, i) && Stop(tb, id, i) - 1 <= s.hi)
    ensures Lv(tb, id) < 3
  {
    hide InUse, N, EntryBase, Links, Used, NonEmpty, Accounts, Pieces, Highest, SpansBefore, BlockSpan, HasMem,
         NodesOf, Part;
    var x := ValidForeign(tb, live, name, s, id, i, f);
    assert Disjoint(live[x], s);
    if Lv(tb, id) >= 3 {
      PageAligned(Lv(tb, id), Pfx(tb, id), i);
      hide Shape, Inv;
      PageMeets(live[x].lo, live[x].hi, s.lo, s.hi, Start(tb, id, i));
      assert false;
    }
  }

  /** Two page-aligned ranges that meet one page share its first address. */
  lemma PageMeets(xlo: nat, xhi: nat, slo: nat, shi: nat, page: nat)
    requires xlo % PAGE == 0 && slo % PAGE == 0 && page % PAGE == 0
    requires xlo < page + PAGE && page <= xhi && slo < page + PAGE && page <= shi
    ensures xlo <= page <= xhi && slo <= page <= shi
  {}

  // ---------------------------------------------------------------- clearing

  /** No piece of the segment sits above a level block that spans `[p, p + BlockSpan(l))`. */
  ghost predicate AboveClear(tb: Table, name: nat, l: nat, p: nat) {
    forall id, i :: Own(tb, id, i, name) && Lv(tb, id) < l ==>
      Stop(tb, id, i) <= p || Start(tb, id, i) >= p + BlockSpan(l)
  }

  /** A node of another segment with no next level where the segment stops. */
  predicate StuckAt(tb: Table, name: nat, st: (nat, nat), f: nat, l: nat) {
    && IsNode(tb, st.0, st.1) && N(tb, st.0, st.1).valid && N(tb, st.0, st.1).leaf && InUse(tb.fb, N(tb, st.0, st.1))
    && N(tb, st.0, st.1).seg != name && Spans(tb, st.0, st.1, f) && Lv(tb, st.0) >= l
  }

  lemma LowLevel(tb: Table, name: nat, id: nat, a: nat, jd: nat, j: nat)
    requires AboveClear(tb, name, Lv(tb, id), Pfx(tb, id)) && Own(tb, jd, j, name) && Spans(tb, jd, j, a)
    requires Pfx(tb, id) <= a < Pfx(tb, id) + BlockSpan(Lv(tb, id))
    ensures Lv(tb, jd) >= Lv(tb, id)
  {
    hide InUse, N, EntryBase, Start, Stop, BlockSpan;
  }

  /** Where a segment is stored, the node holds its piece or leads to it. */
  lemma HolderAt(tb: Table, live: Live, name: nat, a: nat, id: nat, i: nat)
    requires Inv(tb, live, None, None) && name in live && Within(live[name], a)
    requires IsNode(tb, id, i) && Spans(tb, id, i, a) && AboveClear(tb, name, Lv(tb, id), Pfx(tb, id))
    ensures Own(tb, id, i, name) || (exists jd, j :: Holds(tb, jd, j, name, a) && Lv(tb, jd) > Lv(tb, id))
    ensures N(tb, id, i).valid && (!Own(tb, id, i, name) ==> Leading(N(tb, id, i)))
  {
    hide InUse, N, EntryBase, Start, Stop, BlockSpan, PiecesOk, Highest, Accounts, Used, NonEmpty, LiveOk, Apart,
         AboveClear, LeadsTo, LeadsOk, FormsOk;
    assert HeldAt(tb, name, a);
    var jd, j :| Holds(tb, jd, j, name, a);
    hide Covered;
    NodeInBlock(tb, id, i);
    LowLevel(tb, name, id, a, jd, j);
    if Lv(tb, jd) == Lv(tb, id) {
      Grid(tb, id, i, jd, j, a);
      OwnValid(tb, id, i, name);
    } else {
      Nested(tb, id, i, jd, j, a);
    }
  }

  lemma Holder(tb: Table, live: Live, name: nat, s: Seg, g: nat, f: nat, id: nat, i: nat)
    requires name !in live && g < f && Inv(tb, Part(live, name, s, g, f), None, None)
    requires IsNode(tb, id, i) && Spans(tb, id, i, g) && AboveClear(tb, name, Lv(tb, id), Pfx(tb, id))
    ensures Own(tb, id, i, name) || (exists jd, j :: Holds(tb, jd, j, name, g) && Lv(tb, jd) > Lv(tb, id))
    ensures N(tb, id, i).valid && (!Own(tb, id, i, name) ==> Leading(N(tb, id, i)))
  {
    hide Inv, N, InUse, Start, Stop, AboveClear;
    HolderAt(tb, Part(live, name, s, g, f), name, g, id, i);
  }

  lemma OwnValid(tb: Table, id: nat, i: nat, x: nat)
    requires Own(tb, id, i, x)
    ensures N(tb, id, i).valid
  {
    hide N;
  }

  /** Where the segment stops, the node is the foreign one or leads to it. */
  lemma Stopper(tb: Table, name: nat, st: (nat, nat), f: nat, id: nat, i: nat)
    requires Shape(tb) && Links(tb) && IsNode(tb, id, i) && Spans(tb, id, i, f) && StuckAt(tb, name, st, f, Lv(tb, id))
    ensures st == (id, i) || (Leading(N(tb, id, i)) && StuckAt(tb, name, st, f, Lv(tb, id) + 1))
    ensures Start(tb, id, i) <= Start(tb, st.0, st.1) && Stop(tb, st.0, st.1) <= Stop(tb, id, i)
  {
    hide InUse, N, EntryBase, Start, Stop, BlockSpan, LeadsTo, LeadsOk, FormsOk;
    if Lv(tb, st.0) == Lv(tb, id) {
      Grid(tb, id, i, st.0, st.1, f);
    } else {
      Nested(tb, id, i, st.0, st.1, f);
    }
  }

  /** The own range of a piece of the segment is what the walk expects there. */
  lemma OwnMatches(tb: Table, live: Live, name: nat, s: Seg, g: nat, f: nat, id: nat, i: nat)
    requires name !in live && g < f <= s.hi + 1 && PiecesOk(tb, Part(live, name, s, g, f))
    requires Own(tb, id, i, name) && Spans(tb, id, i, g) && (f <= s.hi ==> SpansBefore(tb, name, f))
    ensures Start(tb, id, i) + N(tb, id, i).base == g
    ensures Start(tb, id, i) + N(tb, id, i).limit + 1 == Min(Stop(tb, id, i), s.hi + 1)
  {
    hide InUse, N, EntryBase, Start, Stop;
    assert PieceOk(N(tb, id, i), Part(live, name, s, g, f)[name], Start(tb, id, i), Stop(tb, id, i));
  }

  /** The own range of another segment is not. */
  lemma ForeignDiffers(tb: Table, live: Live, name: nat, s: Seg, g: nat, f: nat, id: nat, i: nat)
    requires Fits(live, name, s) && s.lo <= g <= s.hi && PiecesOk(tb, Part(live, name, s, g, f))
    requires IsNode(tb, id, i) && InUse(tb.fb, N(tb, id, i)) && N(tb, id, i).seg != name && Spans(tb, id, i, g)
    ensures Start(tb, id, i) + N(tb, id, i).base != g
  {
    hide InUse, N, EntryBase, Start, Stop;
    var x := N(tb, id, i).seg;
    assert PieceOk(N(tb, id, i), Part(live, name, s, g, f)[x], Start(tb, id, i), Stop(tb, id, i));
    assert Disjoint(live[x], s);
  }

  /** A node whose whole span is in the segment, met by the walk, holds it and has no next level. */
  lemma WholeIsOwn(tb: Table, live: Live, name: nat, s: Seg, g: nat, f: nat, id: nat, i: nat)
    requires Fits(live, name, s) && g < f && Inv(tb, Part(live, name, s, g, f), None, None) && Low(tb, name, s.lo, s.hi)
    requires IsNode(tb, id, i) && g == Start(tb, id, i) && AboveClear(tb, name, Lv(tb, id), Pfx(tb, id))
    requires s.lo <= Start(tb, id, i) && Stop(tb, id, i) <= s.hi + 1
    ensures Own(tb, id, i, name) && N(tb, id, i).leaf
  {
    hide InUse, N, EntryBase, Start, Stop, BlockSpan, PiecesOk, Highest, Accounts, Used, NonEmpty, LiveOk, Apart,
         AboveClear, LeadsTo, LeadsOk, FormsOk, Part, Covered, Low;
    Holder(tb, live, name, s, g, f, id, i);
    if !Own(tb, id, i, name) {
      var jd, j :| Holds(tb, jd, j, name, g) && Lv(tb, jd) > Lv(tb, id);
      NotBelow(tb, name, s, id, i, jd, j, g);
      assert false;
    }
    OwnValid(tb, id, i, name);
    if !N(tb, id, i).leaf {
      LeadingShared(tb, live, name, s, g, f, id, i);
      assert false;
    }
  }

  lemma NotBelow(tb: Table, name: nat, s: Seg, id: nat, i: nat, jd: nat, j: nat, g: nat)
    requires Shape(tb) && Links(tb) && Low(tb, name, s.lo, s.hi) && IsNode(tb, id, i) && Spans(tb, id, i, g)
    requires s.lo <= Start(tb, id, i) && Stop(tb, id, i) <= s.hi + 1 && Holds(tb, jd, j, name, g)
    ensures Lv(tb, jd) <= Lv(tb, id)
  {
    hide InUse, N, EntryBase, Start, Stop, BlockSpan, LeadsTo, LeadsOk, FormsOk;
    if Lv(tb, jd) > Lv(tb, id) {
      Nested(tb, id, i, jd, j, g);
    }
  }

  /** A piece of the segment above another level is not all inside the segment. */
  lemma LeadingShared(tb: Table, live: Live, name: nat, s: Seg, g: nat, f: nat, id: nat, i: nat)
    requires Fits(live, name, s) && Inv(tb, Part(live, name, s, g, f), None, None) && Own(tb, id, i, name)
    requires Leading(N(tb, id, i))
    ensures !(s.lo <= Start(tb, id, i) && Stop(tb, id, i) <= s.hi + 1)
  {
    hide InUse, N, EntryBase, Start, Stop, BlockSpan, Highest, Accounts, Used, NonEmpty, LiveOk, Covered;
    var jd, j := BelowHolds(tb, id, i);
    hide Structure;
    var x := N(tb, jd, j).seg;
    assert PieceOk(N(tb, jd, j), Part(live, name, s, g, f)[x], Start(tb, jd, j), Stop(tb, jd, j));
    assert Own(tb, jd, j, x) && x != name;
    assert Disjoint(live[x], s);
  }

  /** Below a node that leads on there is a piece. */
  lemma BelowHolds(tb: Table, id: nat, i: nat) returns (jd: nat, j: nat)
    requires Structure(tb, None, None) && IsNode(tb, id, i) && Leading(N(tb, id, i))
    ensures IsNode(tb, jd, j) && InUse(tb.fb, N(tb, jd, j)) && Lv(tb, jd) > Lv(tb, id)
    ensures Start(tb, id, i) <= Start(tb, jd, j) && Stop(tb, jd, j) <= Stop(tb, id, i)
  {
    hide BlockSpan, HasMem, NodesOf, EntryBase, BlkOf, SubOf, Next, InUse, CountValid, Accounts, N;
    var c := Next(N(tb, id, i));
    assert LeadsTo(tb, id, i, c);
    UpSpan(tb, c);
    var k := ValidIn(tb, c);
    NodeInBlock(tb, c, k);
    jd, j := ValidHolds(tb, c, k);
  }

  /** The segment does not stop inside a node whose whole span is in it. */
  lemma WholeNotStuck(tb: Table, live: Live, name: nat, s: Seg, g: nat, f: nat, st: (nat, nat), id: nat, i: nat)
    requires Fits(live, name, s) && Inv(tb, Part(live, name, s, g, f), None, None)
    requires IsNode(tb, id, i) && Spans(tb, id, i, f) && StuckAt(tb, name, st, f, Lv(tb, id))
    ensures !(s.lo <= Start(tb, id, i) && Stop(tb, id, i) <= s.hi + 1)
  {
    hide InUse, N, EntryBase, Start, Stop, BlockSpan, Highest, Accounts, Used, NonEmpty, LiveOk, Covered, Apart;
    Stopper(tb, name, st, f, id, i);
    hide Links, Shape;
    var x := N(tb, st.0, st.1).seg;
    assert PieceOk(N(tb, st.0, st.1), Part(live, name, s, g, f)[x], Start(tb, st.0, st.1), Stop(tb, st.0, st.1));
    assert Disjoint(live[x], s);
  }
}
