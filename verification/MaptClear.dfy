/** Clearing, on values: what holds between the steps of removing a segment, whole or partly stored. */
module MaptClear {
  import opened Basics
  import opened MaptModel
  import opened MaptInv
  import opened MaptUpdates
  import opened MaptBlocks
  import opened MaptGrid
  import opened MaptPieces
  import opened MaptSteps
  import opened MaptDecide
  import opened MaptExt
  import opened MaptWalk
  import opened MaptFill

  // ---------------------------------------------------------------- what clearing leaves alone

  /** Pieces of other segments stay, and a node without a next level gets none. */
  predicate KeptOther(tb: Table, tb': Table, id: nat, i: nat) {
    Kept(tb, tb', id, i) && (N(tb, id, i).leaf ==> N(tb', id, i).leaf)
  }

  ghost predicate KeepsOther(tb: Table, tb': Table, name: nat) {
    forall id, i :: IsNode(tb, id, i) && InUse(tb.fb, N(tb, id, i)) && N(tb, id, i).seg != name ==>
      KeptOther(tb, tb', id, i)
  }

  ghost predicate SameAbove(tb: Table, tb': Table, id: nat) {
    && (forall jd :: jd in tb.bitmap && Lv(tb, jd) <= Lv(tb, id) && jd != id ==> jd in tb'.bitmap)
    && (forall jd: nat, j: nat ::
          jd in tb.bitmap && Lv(tb, jd) < Lv(tb, id) && (id in tb.up ==> (jd, j) != tb.up[id]) ==>
          N(tb', jd, j) == N(tb, jd, j))
    && (id == 0 ==> 0 in tb'.bitmap)
    && (id != 0 ==>
          && id in tb.up
          && var n := N(tb, tb.up[id].0, tb.up[id].1);
             N(tb', tb.up[id].0, tb.up[id].1) == if id in tb'.bitmap then n else Detach(n))
  }

  /** The effect of clearing in level block `id` and below: at and above its level only the node that
      leads to it changes, and only if the block goes. */
  ghost predicate Cleared(tb: Table, tb': Table, id: nat, name: nat) {
    && tb'.fb == tb.fb && tb'.pos == tb.pos && tb'.up == tb.up && tb'.bitmap <= tb.bitmap
    && Keeps(tb', tb) && KeepsOther(tb, tb', name) && SameAbove(tb, tb', id)
  }

  lemma KeepsOtherTrans(tb: Table, t: Table, tb': Table, name: nat)
    requires KeepsOther(tb, t, name) && KeepsOther(t, tb', name)
    ensures KeepsOther(tb, tb', name)
  {
    hide InUse, N, Start, Stop, Lv, Pfx;
    forall jd, j | IsNode(tb, jd, j) && InUse(tb.fb, N(tb, jd, j)) && N(tb, jd, j).seg != name
      ensures KeptOther(tb, tb', jd, j)
    {
      assert KeptOther(tb, t, jd, j);
      assert KeptOther(t, tb', jd, j);
    }
  }

  lemma ClearedTrans(tb: Table, t: Table, tb': Table, id: nat, name: nat)
    requires Cleared(tb, t, id, name) && id in t.bitmap && Cleared(t, tb', id, name)
    ensures Cleared(tb, tb', id, name)
  {
    hide N, KeepsOther, Keeps;
    KeepsOtherTrans(tb, t, tb', name);
    KeepsTrans(tb', t, tb);
  }

  /** Clearing in a child is clearing in the block above it, which stays. */
  lemma ClearedUp(tb: Table, tb': Table, id: nat, i: nat, c: nat, name: nat)
    requires Cleared(tb, tb', c, name) && id in tb.bitmap && c in tb.up && tb.up[c] == (id, i)
    requires Lv(tb, c) == Lv(tb, id) + 1 && c != 0
    requires UpsOk(tb) && Shape(tb)
    ensures Cleared(tb, tb', id, name) && id in tb'.bitmap
    ensures N(tb', id, i) == if c in tb'.bitmap then N(tb, id, i) else Detach(N(tb, id, i))
  {
    hide N, KeepsOther, Keeps, HasMem, NodesOf, BlockSpan, EntryBase;
    if id != 0 {
      var (p, j) := tb.up[id];
      assert LeadsTo(tb, p, j, id);
      hide LeadsTo;
    }
    hide UpsOk, Shape;
  }

  lemma RemoveCleared(tb: Table, id: nat, i: nat, name: nat)
    requires Structure(tb, None, None) && Own(tb, id, i, name)
    ensures Cleared(tb, Put(tb, id, i, Removed(tb.fb, N(tb, id, i))), id, name)
  {
    hide N, HasMem, NodesOf, BlockSpan, EntryBase, Accounts, Used, NonEmpty, Put, LeadsTo, KeepsBut, Keeps;
    var n := Removed(tb.fb, N(tb, id, i));
    RemovedFree(tb.fb, N(tb, id, i));
    hide InUse, Removed;
    PutKeeps(tb, id, i, n);
    PutGet(tb, id, i, n);
    PutOther(tb, id, i, n, name);
    PutAbove(tb, id, i, n);
  }

  lemma PutAbove(tb: Table, id: nat, i: nat, n: Node)
    requires Shape(tb) && UpsOk(tb) && IsNode(tb, id, i)
    ensures SameAbove(tb, Put(tb, id, i, n), id)
  {
    hide N, HasMem, NodesOf, BlockSpan, EntryBase, Put;
    PutGet(tb, id, i, n);
    if id != 0 {
      var (p, j) := tb.up[id];
      assert LeadsTo(tb, p, j, id);
      assert p != id;
      hide LeadsTo;
    }
    hide UpsOk, Shape;
  }

  lemma PutOther(tb: Table, id: nat, i: nat, n: Node, name: nat)
    requires Shape(tb) && IsNode(tb, id, i) && (!InUse(tb.fb, N(tb, id, i)) || N(tb, id, i).seg == name)
    ensures KeepsOther(tb, Put(tb, id, i, n), name)
  {
    hide InUse, N, HasMem, NodesOf, BlockSpan, EntryBase, Put;
    PutGet(tb, id, i, n);
    hide Shape;
  }

  lemma DropOther(tb: Table, id: nat, name: nat)
    requires CanDrop(tb, id)
    ensures KeepsOther(tb, DropBlock(tb, id), name)
  {
    hide InUse, N, HasMem, NodesOf, BlockSpan, EntryBase, DropBlock, Links, Accounts, Shape;
    DropKeeps(tb, id);
    DropGet(tb, id);
    forall jd: nat, j: nat | IsNode(tb, jd, j) && InUse(tb.fb, N(tb, jd, j))
      ensures KeptOther(tb, DropBlock(tb, id), jd, j)
    {
      assert Kept(tb, DropBlock(tb, id), jd, j);
      assert jd in DropBlock(tb, id).bitmap;
    }
  }

  lemma DropSameAbove(tb: Table, id: nat)
    requires CanDrop(tb, id)
    ensures SameAbove(tb, DropBlock(tb, id), id)
  {
    hide N, HasMem, NodesOf, BlockSpan, EntryBase, DropBlock, Links, Accounts, Shape;
    DropGet(tb, id);
    hide CanDrop;
  }

  lemma DropCleared(tb: Table, id: nat, name: nat)
    requires CanDrop(tb, id)
    ensures Cleared(tb, DropBlock(tb, id), id, name)
  {
    hide N, HasMem, NodesOf, BlockSpan, EntryBase, DropBlock, Links, Accounts, Shape, Keeps, KeepsOther, SameAbove;
    DropKeeps(tb, id);
    DropOther(tb, id, name);
    DropSameAbove(tb, id);
    DropGet(tb, id);
  }

  lemma WipeCleared(tb: Table, id: nat, i: nat, hole: Option<(nat, nat)>, name: nat)
    requires CanWipe(tb, id, i, hole) && (!InUse(tb.fb, N(tb, id, i)) || N(tb, id, i).seg == name)
    ensures Cleared(tb, Wiped(tb, id, i), id, name)
  {
    hide N, InUse, HasMem, NodesOf, BlockSpan, EntryBase, Accounts, Used, NonEmpty, Put, LeadsTo, KeepsBut, Keeps,
         KeepsOther, SameAbove, DropBlock, CanDrop, Shape;
    WipeStructure(tb, id, i, hole);
    var t := Put(tb, id, i, ZERO);
    assert !InUse(tb.fb, ZERO) by { ZeroFree(tb.fb); }
    PutKeeps(tb, id, i, ZERO);
    PutGet(tb, id, i, ZERO);
    PutOther(tb, id, i, ZERO, name);
    PutAbove(tb, id, i, ZERO);
    assert Cleared(tb, t, id, name);
    if Wiped(tb, id, i) != t {
      DropCleared(t, id, name);
      ClearedTrans(tb, t, DropBlock(t, id), id, name);
    }
  }

  lemma ZeroFree(fb: bool)
    ensures !InUse(fb, ZERO)
  {}

  // ---------------------------------------------------------------- the state of a walk

  /** Of segment `s`, `[g, f)` is still stored. Either `f` is its end, or the segment was stored only
      up to `f`, where node `st` of another segment stopped it. */
  ghost predicate ClearState(tb: Table, live: Live, s: Seg, g: nat, f: nat, hole: Option<(nat, nat)>, st: (nat, nat),
                             t0: Option<Table>) {
    && Fits(live, s.lo, s) && Inv(tb, Part(live, s.lo, s, g, f), hole, None) && Low(tb, s.lo, s.lo, s.hi)
    && s.lo <= g <= f <= s.hi + 1
    && (f <= s.hi ==> SpansBefore(tb, s.lo, f) && StuckAt(tb, s.lo, st, f, 0))
    && (t0.Some? ==> Base(t0.value, s.lo) && Ext(t0.value, tb, s.lo))
  }

  /** The parts of the state that only shrink follow from `Cleared`. */
  lemma ClearKeeps(tb: Table, tb': Table, id: nat, s: Seg, f: nat, st: (nat, nat))
    requires Cleared(tb, tb', id, s.lo) && Low(tb, s.lo, s.lo, s.hi)
    requires f <= s.hi ==> SpansBefore(tb, s.lo, f) && StuckAt(tb, s.lo, st, f, 0)
    ensures Low(tb', s.lo, s.lo, s.hi) && (f <= s.hi ==> SpansBefore(tb', s.lo, f) && StuckAt(tb', s.lo, st, f, 0))
  {
    hide N, InUse, Start, Stop, Low, SpansBefore, Keeps, SameAbove, Lv, Pfx;
    FewerLow(tb, tb', s.lo, s.lo, s.hi);
    FewerSpans(tb, tb', s.lo, f);
    if f <= s.hi {
      assert KeptOther(tb, tb', st.0, st.1);
      StuckKept(tb, tb', s.lo, st, f);
    }
  }

  lemma StuckKept(tb: Table, tb': Table, name: nat, st: (nat, nat), f: nat)
    requires StuckAt(tb, name, st, f, 0) && KeptOther(tb, tb', st.0, st.1)
    ensures StuckAt(tb', name, st, f, 0)
  {
    hide N, Start, Stop, Lv, Pfx;
  }

  lemma AboveKept(tb: Table, tb': Table, id: nat, name: nat, l: nat, p: nat)
    requires Cleared(tb, tb', id, name) && AboveClear(tb, name, l, p)
    ensures AboveClear(tb', name, l, p)
  {
    hide N, InUse, Start, Stop, KeepsOther, SameAbove, Lv, Pfx, BlockSpan, Own;
    forall jd, j | Own(tb', jd, j, name)
      ensures Own(tb, jd, j, name) && Lv(tb', jd) == Lv(tb, jd) && Start(tb', jd, j) == Start(tb, jd, j)
      ensures Stop(tb', jd, j) == Stop(tb, jd, j)
    {
      KeptOwn(tb', tb, jd, j, name);
    }
    hide Keeps;
  }

  /** Below a node that does not hold the segment. */
  lemma AboveChild(tb: Table, name: nat, id: nat, i: nat)
    requires Shape(tb) && Links(tb) && IsNode(tb, id, i) && AboveClear(tb, name, Lv(tb, id), Pfx(tb, id))
    requires !Own(tb, id, i, name)
    requires Lv(tb, id) < 3
    ensures AboveClear(tb, name, Lv(tb, id) + 1, Start(tb, id, i))
  {
    hide N, InUse, Start, Stop, BlockSpan, LeadsTo, LeadsOk, FormsOk, UpsOk;
    NextSpan(Lv(tb, id));
    NodeInBlock(tb, id, i);
    forall jd, j | Own(tb, jd, j, name) && Lv(tb, jd) < Lv(tb, id) + 1
      ensures Stop(tb, jd, j) <= Start(tb, id, i) || Start(tb, jd, j) >= Start(tb, id, i) + BlockSpan(Lv(tb, id) + 1)
    {
      if Lv(tb, jd) == Lv(tb, id) {
        Grids(tb, id, i, jd, j);
      }
      StopIs(tb, id, i);
    }
  }

  lemma StopIs(tb: Table, id: nat, i: nat)
    ensures Stop(tb, id, i) == Start(tb, id, i) + Span(Lv(tb, id))
  {}

  lemma Grids(tb: Table, id: nat, i: nat, jd: nat, j: nat)
    requires Shape(tb) && Links(tb) && IsNode(tb, id, i) && IsNode(tb, jd, j) && Lv(tb, jd) == Lv(tb, id)
    ensures (jd == id && j == i) || Stop(tb, jd, j) <= Start(tb, id, i) || Stop(tb, id, i) <= Start(tb, jd, j)
  {
    hide N, InUse, Start, Stop, BlockSpan, LeadsTo, LeadsOk, FormsOk, UpsOk;
    if Start(tb, jd, j) <= Start(tb, id, i) < Stop(tb, jd, j) {
      Grid(tb, id, i, jd, j, Start(tb, id, i));
    } else if Start(tb, id, i) <= Start(tb, jd, j) < Stop(tb, id, i) {
      Grid(tb, id, i, jd, j, Start(tb, jd, j));
    }
  }

  lemma StuckBelow(tb: Table, name: nat, st: (nat, nat), f: nat, id: nat)
    requires Shape(tb) && Links(tb) && id in tb.bitmap && StuckAt(tb, name, st, f, 0)
    requires Pfx(tb, id) <= f < Pfx(tb, id) + BlockSpan(Lv(tb, id))
    ensures StuckAt(tb, name, st, f, Lv(tb, id))
  {
    hide N, InUse, Start, Stop, BlockSpan, LeadsTo, LeadsOk, FormsOk;
    if Lv(tb, st.0) < Lv(tb, id) {
      BlockNested(tb, id, st.0, st.1, f);
    }
  }

  // ---------------------------------------------------------------- one node

  ghost predicate ClearAt(tb: Table, live: Live, s: Seg, id: nat, i: nat, lo: nat, hi: nat, f: nat, st: (nat, nat),
                          t0: Option<Table>) {
    && IsNode(tb, id, i) && InSpan(s, Start(tb, id, i), Span(Lv(tb, id)), lo, hi)
    && AboveClear(tb, s.lo, Lv(tb, id), Pfx(tb, id))
    && ClearState(tb, live, s, Start(tb, id, i) + lo, f, None, st, t0)
  }

  /** What is left after a walk up to `end`; it succeeds unless the segment was stored only up to an
      address before `end`. */
  ghost predicate ClearPost(tb: Table, tb': Table, id: nat, live: Live, s: Seg, end: nat, f: nat, st: (nat, nat),
                            t0: Option<Table>, ok: bool) {
    && Cleared(tb, tb', id, s.lo) && (ok <==> f >= end)
    && (id !in tb'.bitmap ==> id in tb.up)
    && ClearState(tb', live, s, Min(f, end), f, if id in tb'.bitmap then None else Some(tb.up[id]), st, t0)
  }

  lemma ClearAtFacts(tb: Table, live: Live, s: Seg, id: nat, i: nat, lo: nat, hi: nat, f: nat, st: (nat, nat),
                     t0: Option<Table>)
    requires ClearAt(tb, live, s, id, i, lo, hi, f, st, t0)
    ensures var g := Start(tb, id, i) + lo;
            && Spans(tb, id, i, g) && s.lo <= g <= s.hi && g <= f <= s.hi + 1
            && Start(tb, id, i) + hi + 1 == Min(Stop(tb, id, i), s.hi + 1)
            && Inv(tb, Part(live, s.lo, s, g, f), None, None) && Fits(live, s.lo, s) && IsNode(tb, id, i)
            && AboveClear(tb, s.lo, Lv(tb, id), Pfx(tb, id)) && Low(tb, s.lo, s.lo, s.hi)
            && (f <= s.hi ==> SpansBefore(tb, s.lo, f) && StuckAt(tb, s.lo, st, f, 0))
    ensures Shape(tb) && Links(tb) && Structure(tb, None, None) && HasMem(tb, id) && i < |NodesOf(tb, id)|
  {
    hide N, InUse, Start, BlockSpan, Links, Used, NonEmpty, Accounts, Pieces, Highest, Low, SpansBefore, StuckAt,
         AboveClear, Fits, Part, Base, Ext, Pfx;
    StopIs(tb, id, i);
  }

  /** Every node that the walk meets is valid; one with no next level holds the segment, or stops it. */
  lemma ClearValid(tb: Table, live: Live, s: Seg, id: nat, i: nat, lo: nat, hi: nat, f: nat, st: (nat, nat),
                   t0: Option<Table>)
    requires ClearAt(tb, live, s, id, i, lo, hi, f, st, t0)
    ensures N(tb, id, i).valid && (!Own(tb, id, i, s.lo) && N(tb, id, i).leaf ==> f == Start(tb, id, i) + lo)
    ensures !InUse(tb.fb, N(tb, id, i)) ==> Leading(N(tb, id, i))
  {
    hide N, InUse, Start, Stop, BlockSpan, Links, NonEmpty, Accounts, Pieces, Highest, Low, SpansBefore, AboveClear,
         Fits,
         Part, HasMem, NodesOf, Shape, ClearAt;
    ClearAtFacts(tb, live, s, id, i, lo, hi, f, st, t0);
    FitsName(live, s);
    var g := Start(tb, id, i) + lo;
    if g < f {
      Holder(tb, live, s.lo, s, g, f, id, i);
    } else {
      NodeInBlock(tb, id, i);
      StuckBelow(tb, s.lo, st, f, id);
      Stopper(tb, s.lo, st, f, id, i);
    }
  }

  lemma FitsName(live: Live, s: Seg)
    requires Fits(live, s.lo, s)
    ensures s.lo !in live && s.lo <= s.hi
  {}

  /** The own range that the walk expects is that of the segment, and all of it in this span is stored. */
  lemma ClearMatch(tb: Table, live: Live, s: Seg, id: nat, i: nat, lo: nat, hi: nat, f: nat, st: (nat, nat),
                   t0: Option<Table>)
    requires ClearAt(tb, live, s, id, i, lo, hi, f, st, t0) && InUse(tb.fb, N(tb, id, i))
    ensures Own(tb, id, i, s.lo) <==> N(tb, id, i).base == lo && N(tb, id, i).limit == hi
    ensures Own(tb, id, i, s.lo) ==> Start(tb, id, i) + lo < f && Start(tb, id, i) + hi + 1 == Min(Stop(tb, id, i), f)
  {
    hide N, InUse, Start, Stop, BlockSpan, Structure, Highest, Low, SpansBefore, AboveClear, HasMem, NodesOf, Shape,
         ClearAt, Links, Covered, Apart, LiveOk, StuckAt;
    ClearAtFacts(tb, live, s, id, i, lo, hi, f, st, t0);
    var g, n := Start(tb, id, i) + lo, N(tb, id, i);
    var l := Part(live, s.lo, s, g, f);
    assert PieceOk(n, l[n.seg], Start(tb, id, i), Stop(tb, id, i));
    if n.seg == s.lo {
      OwnMatches(tb, live, s.lo, s, g, f, id, i);
    } else {
      ForeignDiffers(tb, live, s.lo, s, g, f, id, i);
    }
  }

  lemma RangeOrder(tb: Table, live: Live, id: nat, i: nat)
    requires Pieces(tb, live) && IsNode(tb, id, i) && InUse(tb.fb, N(tb, id, i))
    ensures N(tb, id, i).base <= N(tb, id, i).limit
  {
    hide N, InUse, Start, Stop, Covered, Apart;
    var n := N(tb, id, i);
    assert PieceOk(n, live[n.seg], Start(tb, id, i), Stop(tb, id, i));
  }

  lemma ClearWipe(tb: Table, live: Live, s: Seg, id: nat, i: nat, lo: nat, hi: nat, f: nat, st: (nat, nat),
                  t0: Option<Table>)
    requires ClearAt(tb, live, s, id, i, lo, hi, f, st, t0) && Own(tb, id, i, s.lo) && N(tb, id, i).leaf
    ensures ClearPost(tb, Wiped(tb, id, i), id, live, s, Start(tb, id, i) + hi + 1, f, st, t0, true)
    ensures N(tb, id, i).valid
  {
    hide N, InUse, Start, Stop, BlockSpan, Inv, Low, SpansBefore, AboveClear, HasMem, NodesOf, Shape, Links, StuckAt,
         Wiped,
         Cleared, Part, Fits, Base, Ext, Used, NonEmpty, Accounts, Structure, Lv, Pfx;
    ClearAtFacts(tb, live, s, id, i, lo, hi, f, st, t0);
    ClearMatch(tb, live, s, id, i, lo, hi, f, st, t0);
    OwnValid(tb, id, i, s.lo);
    StepWipe(tb, live, s.lo, s, Start(tb, id, i) + lo, f, id, i);
    WipeCleared(tb, id, i, None, s.lo);
    WipeStructure(tb, id, i, None);
    ClearKeeps(tb, Wiped(tb, id, i), id, s, f, st);
    if t0.Some? {
      WipedExt(t0.value, tb, s.lo, id, i, None);
    }
  }

  lemma ClearRemove(tb: Table, live: Live, s: Seg, id: nat, i: nat, lo: nat, hi: nat, f: nat, st: (nat, nat),
                    t0: Option<Table>)
    requires ClearAt(tb, live, s, id, i, lo, hi, f, st, t0) && Own(tb, id, i, s.lo) && !N(tb, id, i).leaf
    ensures ClearPost(tb, Put(tb, id, i, Removed(tb.fb, N(tb, id, i))), id, live, s, Start(tb, id, i) + hi + 1, f, st,
                      t0, true)
    ensures N(tb, id, i).valid
  {
    hide N, InUse, Start, Stop, BlockSpan, Inv, Low, SpansBefore, AboveClear, HasMem, NodesOf, Shape, Links, StuckAt,
         Put,
         Removed, Cleared, Part, Fits, Base, Ext, Used, NonEmpty, Accounts, Structure, Lv, Pfx;
    ClearAtFacts(tb, live, s, id, i, lo, hi, f, st, t0);
    ClearMatch(tb, live, s, id, i, lo, hi, f, st, t0);
    OwnValid(tb, id, i, s.lo);
    StepRemove(tb, live, s.lo, s, Start(tb, id, i) + lo, f, id, i);
    RemoveCleared(tb, id, i, s.lo);
    var tb' := Put(tb, id, i, Removed(tb.fb, N(tb, id, i)));
    PutGet(tb, id, i, Removed(tb.fb, N(tb, id, i)));
    ClearKeeps(tb, tb', id, s, f, st);
    if t0.Some? {
      RemoveExt(t0.value, tb, s.lo, id, i);
    }
  }

  /** A node of another segment with no next level: nothing of the segment is left from here on. */
  lemma ClearStop(tb: Table, live: Live, s: Seg, id: nat, i: nat, lo: nat, hi: nat, f: nat, st: (nat, nat),
                  t0: Option<Table>)
    requires ClearAt(tb, live, s, id, i, lo, hi, f, st, t0) && !Own(tb, id, i, s.lo) && N(tb, id, i).leaf
    ensures ClearPost(tb, tb, id, live, s, Start(tb, id, i) + hi + 1, f, st, t0, false)
  {
    hide N, InUse, Start, Stop, BlockSpan, Inv, Low, SpansBefore, AboveClear, HasMem, NodesOf, Shape, Links, StuckAt,
         Cleared, Part, Fits, Base, Ext, Used, NonEmpty, Accounts, Lv, Pfx;
    ClearAtFacts(tb, live, s, id, i, lo, hi, f, st, t0);
    ClearValid(tb, live, s, id, i, lo, hi, f, st, t0);
    ClearedSelf(tb, id, s.lo);
  }

  lemma ClearedSelf(tb: Table, id: nat, name: nat)
    requires Structure(tb, None, None) && id in tb.bitmap
    ensures Cleared(tb, tb, id, name)
  {
    hide N, InUse, Start, Stop, BlockSpan, HasMem, NodesOf, LeadsTo, LeadsOk, FormsOk, PlacesDiffer, Used, NonEmpty,
         Accounts;
  }

  // ---------------------------------------------------------------- going down and coming back

  ghost predicate ClearHeadPre(tb: Table, live: Live, s: Seg, level: nat, id: nat, i: nat, lo: nat, hi: nat, f: nat,
                               st: (nat, nat), t0: Option<Table>,
                               lvl: nat, flag: bool)
  {
    && ClearAt(tb, live, s, id, i, lo, hi, f, st, t0) && Lv(tb, id) == level && SplitOk(s, lvl)
    && (level < 3 && Sides(Span(level), lo, hi) > 0 ==> WalkIn(s, lvl, flag, level + 1, Start(tb, id, i), Span(level)))
  }

  ghost predicate ClearBlockPre(tb: Table, live: Live, s: Seg, level: nat, pre: Option<(nat, nat)>, lo: nat, hi: nat,
                                f: nat, st: (nat, nat),
                                t0: Option<Table>, lvl: nat, flag: bool)
  {
    var id := Lead(tb, pre);
    && LeadOk(tb, pre) && id in tb.bitmap && Lv(tb, id) == level && InBlock(s, level, Pfx(tb, id), lo, hi)
    && (pre.None? <==> id == 0) && (pre.Some? ==> id in tb.up && tb.up[id] == pre.value)
    && AboveClear(tb, s.lo, level, Pfx(tb, id)) && ClearState(tb, live, s, Pfx(tb, id) + lo, f, None, st, t0)
    && SplitOk(s, lvl) && WalkIn(s, lvl, flag, level, Pfx(tb, id), BlockSpan(level))
  }

  /** A node whose whole span is in the segment holds it and has no next level. */
  lemma ClearWhole(tb: Table, live: Live, s: Seg, id: nat, i: nat, lo: nat, hi: nat, f: nat, st: (nat, nat),
                   t0: Option<Table>)
    requires ClearAt(tb, live, s, id, i, lo, hi, f, st, t0) && Sides(Span(Lv(tb, id)), lo, hi) == 0
    ensures Own(tb, id, i, s.lo) && N(tb, id, i).leaf
  {
    hide N, InUse, Start, Stop, BlockSpan, Inv, Low, SpansBefore, AboveClear, HasMem, NodesOf, Shape, Links, StuckAt,
         Part,
         Fits, ClearAt, Span, Lv, Pfx, Structure;
    ClearAtFacts(tb, live, s, id, i, lo, hi, f, st, t0);
    ClearAtSpan(tb, live, s, id, i, lo, hi, f, st, t0);
    WholeNode(s, Start(tb, id, i), Span(Lv(tb, id)), lo, hi);
    StopIs(tb, id, i);
    var g := Start(tb, id, i) + lo;
    if g == f {
      NodeInBlock(tb, id, i);
      StuckBelow(tb, s.lo, st, f, id);
      WholeNotStuck(tb, live, s.lo, s, g, f, st, id, i);
      assert false;
    }
    WholeIsOwn(tb, live, s.lo, s, g, f, id, i);
  }

  lemma ClearAtSpan(tb: Table, live: Live, s: Seg, id: nat, i: nat, lo: nat, hi: nat, f: nat, st: (nat, nat),
                    t0: Option<Table>)
    requires ClearAt(tb, live, s, id, i, lo, hi, f, st, t0)
    ensures InSpan(s, Start(tb, id, i), Span(Lv(tb, id)), lo, hi)
  {
    hide Start, Span, Lv, ClearState, AboveClear;
  }

  lemma ClearDown(tb: Table, live: Live, s: Seg, level: nat, id: nat, i: nat, lo: nat, hi: nat, f: nat,
                  st: (nat, nat), t0: Option<Table>, lvl: nat, flag: bool)
    requires ClearHeadPre(tb, live, s, level, id, i, lo, hi, f, st, t0, lvl, flag) && Leading(N(tb, id, i))
    requires !Own(tb, id, i, s.lo)
    ensures ClearBlockPre(tb, live, s, level + 1, Some((id, i)), lo, hi, f, st, t0, lvl, flag)
    ensures var c := Lead(tb, Some((id, i)));
            Pfx(tb, c) == Start(tb, id,
                                i) && BlockSpan(level + 1) == Span(level) && level < 3 && Sides(Span(level), lo, hi) > 0
    ensures WalkIn(s, lvl, flag, level + 1, Start(tb, id, i), Span(level)) && Start(tb, id, i) % Span(level) == 0
    ensures s.lo <= s.hi
  {
    hide N, InUse, Start, Stop, BlockSpan, Inv, Low, SpansBefore, HasMem, NodesOf, Shape, StuckAt, Part, Fits, Span,
         Pfx,
         Structure, AboveClear, ClearState, WalkIn, SplitOk, Sides, UpsOk, PlacesDiffer, FormsOk, Next;
    ClearAtFacts(tb, live, s, id, i, lo, hi, f, st, t0);
    var c := Next(N(tb, id, i));
    assert LeadsTo(tb, id, i, c);
    AboveChild(tb, s.lo, id, i);
    if Sides(Span(level), lo, hi) == 0 {
      ClearWhole(tb, live, s, id, i, lo, hi, f, st, t0);
      assert false;
    }
    ChildRange(s, level, Start(tb, id, i), lo, hi);
    NextSpan(level);
    StartAligned(tb, id, i);
    FitsName(live, s);
  }

  /** Coming back: the next level is still there, or this node holds a piece of another segment. */
  lemma ClearBack(tb: Table, tb': Table, live: Live, s: Seg, id: nat, i: nat, end: nat, f: nat, st: (nat, nat),
                  t0: Option<Table>, ok: bool)
    requires Structure(tb, None, None) && IsNode(tb, id, i) && Leading(N(tb, id, i))
    requires ClearPost(tb, tb', Next(N(tb, id, i)), live, s, end, f, st, t0, ok)
    ensures var c := Next(N(tb, id, i));
            && id in tb'.bitmap && Cleared(tb, tb', id, s.lo)
            && N(tb', id, i) == (if c in tb'.bitmap then N(tb, id, i) else Detach(N(tb, id, i)))
            && (c in tb'.bitmap ==> N(tb', id, i) == N(tb, id, i) && !N(tb', id, i).leaf)
            && (c !in tb'.bitmap ==> N(tb', id, i).leaf && N(tb', id, i).valid)
            && InUse(tb'.fb, N(tb', id, i)) == InUse(tb.fb, N(tb, id, i))
            && (c in tb'.bitmap || InUse(tb'.fb, N(tb', id, i)) ==> ClearPost(tb, tb', id, live, s, end, f, st, t0, ok))
            && (c !in tb'.bitmap ==> ClearState(tb', live, s, Min(f, end), f, Some((id, i)), st, t0))
            && (ok <==> f >= end)
  {
    hide N, InUse, Start, BlockSpan, Inv, Low, SpansBefore, HasMem, NodesOf, StuckAt, Part, Fits, AboveClear, Cleared,
         Accounts, Used, NonEmpty, Base, Ext, Next;
    var c := Next(N(tb, id, i));
    assert LeadsTo(tb, id, i, c);
    ClearedUp(tb, tb', id, i, c, s.lo);
    DetachUse(tb.fb, N(tb, id, i));
    ClearedFb(tb, tb', c, s.lo);
    hide Links, Shape, LeadsTo;
    if c !in tb'.bitmap && InUse(tb'.fb, N(tb', id, i)) {
      HoleFilled(tb', Part(live, s.lo, s, Min(f, end), f), id, i);
    }
  }

  lemma ClearedFb(tb: Table, tb': Table, id: nat, name: nat)
    requires Cleared(tb, tb', id, name)
    ensures tb'.fb == tb.fb && tb'.up == tb.up && tb'.pos == tb.pos && tb'.bitmap <= tb.bitmap
  {
    hide Keeps, KeepsOther, SameAbove;
  }

  /** Coming back to an unused node that has lost its next level: it goes too. */
  lemma ClearHole(tb: Table, tb': Table, live: Live, s: Seg, id: nat, i: nat, end: nat, f: nat, st: (nat, nat),
                  t0: Option<Table>, ok: bool)
    requires Structure(tb, None, None) && IsNode(tb, id, i) && Cleared(tb, tb', id, s.lo) && id in tb'.bitmap
    requires (ok <==> f >= end)
    requires ClearState(tb', live, s, Min(f, end), f, Some((id, i)), st, t0)
    requires N(tb', id, i).valid && N(tb', id, i).leaf && !InUse(tb'.fb, N(tb', id, i))
    ensures ClearPost(tb, Wiped(tb', id, i), id, live, s, end, f, st, t0, ok)
    ensures HasMem(tb', id) && i < |NodesOf(tb', id)|
  {
    hide N, InUse, Start, BlockSpan, Pieces, Highest, Links, Accounts, Used, NonEmpty, Low, SpansBefore, HasMem,
         NodesOf,
         StuckAt, Part, Fits, AboveClear, Cleared, Base, Ext, Wiped;
    var live' := Part(live, s.lo, s, Min(f, end), f);
    StepHole(tb', live', id, i);
    WipeCleared(tb', id, i, Some((id, i)), s.lo);
    WipeStructure(tb', id, i, Some((id, i)));
    ClearKeeps(tb', Wiped(tb', id, i), id, s, f, st);
    ClearedTrans(tb, tb', Wiped(tb', id, i), id, s.lo);
    ClearedFb(tb, tb', id, s.lo);
    if t0.Some? {
      WipedExt(t0.value, tb', s.lo, id, i, Some((id, i)));
    }
    hide Shape, Structure;
  }

  lemma HoleCanWipe(tb: Table, live: Live, s: Seg, id: nat, i: nat, end: nat, f: nat, st: (nat, nat), t0: Option<Table>)
    requires ClearState(tb, live, s, Min(f, end), f, Some((id, i)), st, t0) && IsNode(tb, id, i) && N(tb, id, i).valid
    requires N(tb, id, i).leaf
    ensures CanWipe(tb, id, i, Some((id, i)))
  {
    hide Shape, Links, Used, NonEmpty, Accounts, Pieces, Highest, N;
  }

  /** How many invalidations a walk of level `l` may queue for `k` shared ends. */
  function Cap(l: nat, k: nat): nat {
    if l == 0 then 3 * k else if l == 1 then 2 * k else if l == 2 then k else 0
  }

  lemma CapStep(l: nat, k: nat)
    requires l < 3 && k > 0
    ensures Cap(l + 1, k) + 1 <= Cap(l, k)
  {}

  /** Before going down from a node that does not hold the segment. */
  lemma ClearGo(tb: Table, live: Live, s: Seg, level: nat, id: nat, i: nat, lo: nat, hi: nat, f: nat, st: (nat, nat),
                t0: Option<Table>, lvl: nat, flag: bool)
    requires ClearHeadPre(tb, live, s, level, id, i, lo, hi, f, st, t0, lvl, flag) && !Own(tb, id, i, s.lo)
    requires InUse(tb.fb, N(tb, id, i)) ==> !N(tb, id, i).leaf
    ensures ClearBlockPre(tb, live, s, level + 1, Some((id, i)), lo, hi, f, st, t0, lvl, flag)
    ensures Pfx(tb, Lead(tb, Some((id, i)))) == Start(tb, id, i) && BlockSpan(level + 1) == Span(level) && level < 3
    ensures WalkIn(s, lvl, flag, level + 1, Start(tb, id, i), Span(level)) && Start(tb, id, i) % Span(level) == 0
    ensures s.lo <= s.hi && SplitOk(s, lvl)
    ensures Cap(level + 1, Sides(Span(level), lo, hi)) + 1 <= Cap(level, Sides(Span(level), lo, hi))
    ensures Structure(tb, None, None) && IsNode(tb, id, i) && Leading(N(tb, id, i))
  {
    hide N, InUse, Start, Span, BlockSpan, ClearState, ClearAt, ClearBlockPre, Structure, Own, Shape, Links, Inv, Fits,
         Part, AboveClear, Low, SpansBefore, StuckAt, Sides, Cap, WalkIn, SplitOk, Pfx, Lead;
    ClearAtFacts(tb, live, s, id, i, lo, hi, f, st, t0);
    ClearValid(tb, live, s, id, i, lo, hi, f, st, t0);
    ClearDown(tb, live, s, level, id, i, lo, hi, f, st, t0, lvl, flag);
    CapStep(level, Sides(Span(level), lo, hi));
  }

  /** After coming back to an unused node. */
  lemma ClearReturn(tb: Table, tb': Table, live: Live, s: Seg, id: nat, i: nat, end: nat, f: nat, st: (nat, nat),
                    t0: Option<Table>, ok: bool)
    requires Structure(tb, None, None) && IsNode(tb, id, i) && Leading(N(tb, id, i)) && !InUse(tb.fb, N(tb, id, i))
    requires ClearPost(tb, tb', Lead(tb, Some((id, i))), live, s, end, f, st, t0, ok)
    ensures !N(tb', id, i).leaf ==> ClearPost(tb, tb', id, live, s, end, f, st, t0, ok)
    ensures N(tb', id, i).leaf ==>
              CanWipe(tb', id, i, Some((id, i))) && ClearPost(tb, Wiped(tb', id, i), id, live, s, end, f, st, t0, ok)
    ensures tb'.up == tb.up
  {
    hide N, InUse, Structure, ClearPost, ClearState, Cleared, CanWipe, Wiped, HasMem, NodesOf, Next;
    ClearBack(tb, tb', live, s, id, i, end, f, st, t0, ok);
    ClearedFb(tb, tb', id, s.lo);
    if N(tb', id, i).leaf {
      ClearHole(tb, tb', live, s, id, i, end, f, st, t0, ok);
      HoleCanWipe(tb', live, s, id, i, end, f, st, t0);
    }
  }

  // ---------------------------------------------------------------- one entry of a level block

  ghost predicate ClearEntryPre(tb: Table, live: Live, s: Seg, level: nat, id: nat, pre: Option<(nat, nat)>, i: nat,
                                lo: nat, hi: nat, f: nat,
                                st: (nat, nat), t0: Option<Table>, lvl: nat, flag: bool)
  {
    && id in tb.bitmap && Lv(tb, id) == level && InBlock(s, level, Pfx(tb, id), lo, hi)
    && (pre.None? <==> id == 0) && (pre.Some? ==> id in tb.up && tb.up[id] == pre.value)
    && IndexAt(level, lo) <= i <= IndexAt(level, hi) && AboveClear(tb, s.lo, level, Pfx(tb, id))
    && ClearState(tb, live, s, Reach(level, Pfx(tb, id), lo, hi, i), f, None, st, t0)
    && WalkAt(s, lvl, flag, level, Pfx(tb, id), lo, hi)
  }

  lemma ClearEntryAt(tb: Table, live: Live, s: Seg, level: nat, id: nat, pre: Option<(nat, nat)>, i: nat, lo: nat,
                     hi: nat, f: nat,
                     st: (nat, nat), t0: Option<Table>, lvl: nat, flag: bool)
    requires ClearEntryPre(tb, live, s, level, id, pre, i, lo, hi, f, st, t0, lvl, flag)
    ensures ClearAt(tb, live, s, id, i, NodeBase(level, lo, i), NodeLimit(level, hi, i), f, st, t0)
    ensures Lv(tb, id) == level
    ensures Start(tb, id, i) + NodeLimit(level, hi, i) + 1 == Reach(level, Pfx(tb, id), lo, hi, i + 1)
    ensures IndexAt(level, lo) < i < IndexAt(level, hi) ==>
              Sides(Span(level), NodeBase(level, lo, i), NodeLimit(level, hi, i)) == 0
  {
    hide ClearState, EntryBase, IndexAt, OffsetAt, Span, BlockSpan, N, Reach, WalkAt, AboveClear;
    var p := Pfx(tb, id);
    NodeRange(s, level, p, lo, hi, i);
    ReachNode(s, level, p, lo, hi, i);
    WholeNode(s, EntryBase(level, p, i), Span(level), NodeBase(level, lo, i), NodeLimit(level, hi, i));
  }

  lemma ClearEntryHead(tb: Table, live: Live, s: Seg, level: nat, id: nat, pre: Option<(nat, nat)>, i: nat, lo: nat,
                       hi: nat, f: nat,
                       st: (nat, nat), t0: Option<Table>, lvl: nat, flag: bool)
    requires ClearEntryPre(tb, live, s, level, id, pre, i, lo, hi, f, st, t0, lvl, flag)
    requires i == IndexAt(level, lo) || i == IndexAt(level, hi)
    ensures ClearHeadPre(tb, live, s, level, id, i, NodeBase(level, lo, i), NodeLimit(level, hi, i), f, st, t0, lvl,
                         if lvl == level then i == IndexAt(level, lo) else flag)
  {
    hide ClearState, EntryBase, IndexAt, OffsetAt, Span, BlockSpan, N, SplitOk, Reach, AboveClear, ClearAt, NodeBase,
         NodeLimit, Sides;
    var p := Pfx(tb, id);
    ClearEntryAt(tb, live, s, level, id, pre, i, lo, hi, f, st, t0, lvl, flag);
    var flag' := if lvl == level then i == IndexAt(level, lo) else flag;
    if level < 3 && Sides(Span(level), NodeBase(level, lo, i), NodeLimit(level, hi, i)) > 0 {
      WalkNode(s, lvl, flag', level, p, lo, hi, i);
    }
  }

  /** A level block with something of the segment, or what stops it, below an address of its span stays. */
  lemma StillThere(tb: Table, tb': Table, id: nat, a: nat, jd: nat, j: nat)
    requires Shape(tb) && PlacesDiffer(tb) && id in tb.bitmap && Shape(tb') && UpsOk(tb')
    requires tb'.pos == tb.pos && tb'.bitmap <= tb.bitmap
    requires IsNode(tb', jd, j) && Lv(tb', jd) >= Lv(tb, id) && Spans(tb', jd, j, a)
    requires Pfx(tb, id) <= a < Pfx(tb, id) + BlockSpan(Lv(tb, id))
    ensures id in tb'.bitmap
  {
    hide N, Start, Stop, BlockSpan, HasMem, NodesOf, LeadsTo;
    var aid, ai := jd, j;
    NodeInBlock(tb', jd, j);
    if Lv(tb', jd) > Lv(tb, id) {
      aid, ai := Ancestor(tb', jd, Lv(tb, id));
      NodeInBlock(tb', aid, ai);
    }
    SameCell(Lv(tb, id), Pfx(tb, id), Pfx(tb', aid), a);
  }

  lemma BlockStays(tb: Table, tb': Table, live: Live, s: Seg, id: nat, g: nat, f: nat, st: (nat, nat),
                   t0: Option<Table>, hole: Option<(nat, nat)>)
    requires Structure(tb, None, None) && Cleared(tb, tb', id, s.lo) && id in tb.bitmap
    requires AboveClear(tb, s.lo, Lv(tb, id), Pfx(tb, id))
    requires ClearState(tb', live, s, g, f, hole, st, t0) && g <= s.hi && (f <= s.hi ==> StuckAt(tb, s.lo, st, f, 0))
    requires Pfx(tb, id) <= g < Pfx(tb, id) + BlockSpan(Lv(tb, id))
    ensures id in tb'.bitmap
  {
    hide N, InUse, Start, Stop, BlockSpan, HasMem, NodesOf, LeadsTo, LeadsOk, FormsOk, Accounts, Used, NonEmpty,
         PiecesOk,
         Highest, Low, SpansBefore, Keeps, KeepsOther, SameAbove, LiveOk, Apart, AboveClear, Own, Base, Ext;
    if g < f {
      var l := Part(live, s.lo, s, g, f);
      assert Within(l[s.lo], g) && HeldAt(tb', s.lo, g);
      var jd, j :| Holds(tb', jd, j, s.lo, g);
      hide Covered;
      HolderLevel(tb, tb', id, s.lo, jd, j, g);
      StillThere(tb, tb', id, g, jd, j);
    } else {
      StuckBelow(tb, s.lo, st, f, id);
      StillThere(tb, tb', id, g, st.0, st.1);
    }
  }

  lemma HolderLevel(tb: Table, tb': Table, id: nat, name: nat, jd: nat, j: nat, g: nat)
    requires Cleared(tb, tb', id, name) && AboveClear(tb, name, Lv(tb, id), Pfx(tb, id)) && Holds(tb', jd, j, name, g)
    requires Pfx(tb, id) <= g < Pfx(tb, id) + BlockSpan(Lv(tb, id))
    ensures IsNode(tb', jd, j) && Lv(tb', jd) >= Lv(tb, id) && Spans(tb', jd, j, g)
  {
    hide N, InUse, Start, Stop, BlockSpan, KeepsOther, SameAbove;
    AboveKept(tb, tb', id, name, Lv(tb, id), Pfx(tb, id));
    hide Keeps;
  }

  /** After coming back to a node in use by another segment. */
  lemma ClearReturnUsed(tb: Table, tb': Table, live: Live, s: Seg, id: nat, i: nat, end: nat, f: nat, st: (nat, nat),
                        t0: Option<Table>, ok: bool)
    requires Structure(tb, None, None) && IsNode(tb, id, i) && Leading(N(tb, id, i)) && InUse(tb.fb, N(tb, id, i))
    requires ClearPost(tb, tb', Lead(tb, Some((id, i))), live, s, end, f, st, t0, ok)
    ensures ClearPost(tb, tb', id, live, s, end, f, st, t0, ok)
  {
    hide N, InUse, Structure, ClearPost, ClearState, Cleared, HasMem, NodesOf, Next;
    ClearBack(tb, tb', live, s, id, i, end, f, st, t0, ok);
  }

  lemma ClearRange(tb: Table, live: Live, s: Seg, id: nat, i: nat, lo: nat, hi: nat, f: nat, st: (nat, nat),
                   t0: Option<Table>)
    requires ClearAt(tb, live, s, id, i, lo, hi, f, st, t0) && InUse(tb.fb, N(tb, id, i))
    ensures N(tb, id, i).base <= N(tb, id, i).limit
  {
    hide N, InUse, Start, Structure, Highest, Pieces, ClearAt, Shape, Links, StuckAt, SpansBefore, Low, AboveClear,
         Fits,
         Part, HasMem, NodesOf;
    ClearAtFacts(tb, live, s, id, i, lo, hi, f, st, t0);
    RangeOrder(tb, Part(live, s.lo, s, Start(tb, id, i) + lo, f), id, i);
  }

  lemma BlockToClearEntry(tb: Table, live: Live, s: Seg, level: nat, pre: Option<(nat, nat)>, lo: nat, hi: nat,
                          f: nat, st: (nat, nat),
                          t0: Option<Table>, lvl: nat, flag: bool)
    requires ClearBlockPre(tb, live, s, level, pre, lo, hi, f, st, t0, lvl, flag)
    ensures ClearEntryPre(tb, live, s, level, Lead(tb, pre), pre, IndexAt(level, lo), lo, hi, f, st, t0,
                          LvlAt(lvl, level, lo, hi), flag)
    ensures var v := LvlAt(lvl, level, lo, hi);
            SplitOk(s, v) && (lvl < level ==> v == lvl) && (lvl >= level ==> v >= level)
    ensures IndexAt(level, lo) <= IndexAt(level, hi) && level < LEVELS && lo <= hi < BlockSpan(level)
    ensures Cleared(tb, tb, Lead(tb, pre), s.lo)
  {
    hide IndexAt, OffsetAt, BlockSpan, SplitOk, WalkAt, WalkIn, N, Next, Fits, Pieces, Highest, Links, Used, NonEmpty,
         Accounts, SpansBefore, Low, Base, Ext,
         Part, LvlAt, HasMem, NodesOf, AboveClear, StuckAt, Cleared;
    var id := Lead(tb, pre);
    IndexOrder(level, lo, hi);
    WalkStart(s, lvl, flag, level, Pfx(tb, id), lo, hi);
    ClearedSelf(tb, id, s.lo);
    hide ClearState;
  }

  lemma ClearEntryStep(tb: Table, tb': Table, live: Live, s: Seg, level: nat, id: nat, pre: Option<(nat, nat)>,
                       i: nat, lo: nat, hi: nat, f: nat,
                       st: (nat, nat), t0: Option<Table>, lvl: nat, flag: bool, lvl': nat, flag': bool)
    requires ClearEntryPre(tb, live, s, level, id, pre, i, lo, hi, f, st, t0, lvl, flag) && i < IndexAt(level, hi)
    requires ClearPost(tb, tb', id, live, s, Reach(level, Pfx(tb, id), lo, hi, i + 1), f, st, t0, true)
    requires SplitOk(s, lvl') && (lvl < level ==> lvl' == lvl && flag' == flag) && (lvl == level ==> lvl' == level)
    ensures ClearEntryPre(tb', live, s, level, id, pre, i + 1, lo, hi, f, st, t0, lvl', flag')
    ensures Pfx(tb', id) == Pfx(tb, id)
  {
    hide IndexAt, OffsetAt, BlockSpan, SplitOk, WalkIn, ClearState, Reach, Cleared, AboveClear, WalkAt, Structure,
         StuckAt;
    var p := Pfx(tb, id);
    var g := Reach(level, p, lo, hi, i + 1);
    ReachNext(s, level, p, lo, hi, i);
    ClearStateFacts(tb, live, s, Reach(level, p, lo, hi, i), f, None, st, t0);
    BlockStays(tb, tb', live, s, id, g, f, st, t0, if id in tb'.bitmap then None else Some(tb.up[id]));
    ClearedFb(tb, tb', id, s.lo);
    AboveKept(tb, tb', id, s.lo, level, p);
    WalkAtNext(s, lvl, flag, lvl', flag', level, p, lo, hi);
  }

  lemma ReachNext(s: Seg, level: nat, p: nat, lo: nat, hi: nat, i: nat)
    requires InBlock(s, level, p, lo, hi) && IndexAt(level, lo) <= i < IndexAt(level, hi)
    ensures var g := Reach(level, p, lo, hi, i + 1); p <= g < p + BlockSpan(level) && g <= s.hi
  {
    hide IndexAt, OffsetAt, BlockSpan, EntryBase;
    NodeRange(s, level, p, lo, hi, i + 1);
    EntryFits(level, p, i + 1);
  }

  lemma ClearStateFacts(tb: Table, live: Live, s: Seg, g: nat, f: nat, hole: Option<(nat, nat)>, st: (nat, nat),
                        t0: Option<Table>)
    requires ClearState(tb, live, s, g, f, hole, st, t0)
    ensures Structure(tb, hole, None) && (f <= s.hi ==> StuckAt(tb, s.lo, st, f, 0))
  {
    hide Structure, StuckAt, Pieces, Highest;
  }

  lemma WalkAtNext(s: Seg, lvl: nat, flag: bool, lvl': nat, flag': bool, l: nat, p: nat, lo: nat, hi: nat)
    requires WalkAt(s, lvl, flag, l, p, lo, hi) && IndexAt(l, lo) != IndexAt(l, hi)
    requires SplitOk(s, lvl') && (lvl < l ==> lvl' == lvl && flag' == flag) && (lvl == l ==> lvl' == l)
    ensures WalkAt(s, lvl', flag', l, p, lo, hi)
  {
    hide IndexAt, WalkIn, SplitOk, BlockSpan;
  }

  lemma ClearEntryAfter(tb: Table, t: Table, t': Table, live: Live, s: Seg, level: nat, id: nat,
                        pre: Option<(nat, nat)>, i: nat, lo: nat, hi: nat, f: nat,
                        st: (nat, nat), t0: Option<Table>, lvl: nat, flag: bool, ok: bool)
    requires Cleared(tb, t, id, s.lo) && ClearEntryPre(t, live, s, level, id, pre, i, lo, hi, f, st, t0, lvl, flag)
    requires ClearPost(t, t', id, live, s, Reach(level, Pfx(t, id), lo, hi, i + 1), f, st, t0, ok)
    ensures Cleared(tb, t', id, s.lo)
    ensures !ok || i == IndexAt(level, hi) ==> ClearPost(tb, t', id, live, s, Pfx(t, id) + hi + 1, f, st, t0, ok)
  {
    hide ClearState, StuckAt, InBlock, IndexAt, WalkAt, Cleared, AboveClear;
    ReachBounds(s, level, Pfx(t, id), lo, hi, i);
    ClearedTrans(tb, t, t', id, s.lo);
    ClearedFb(tb, t, id, s.lo);
  }
}
