/** One whole table operation, on values: a grant with its rollback, an ungrant, a token update; and what
    the invariant says about the permitted addresses. */
module MaptOps {
  import opened Basics
  import opened MaptModel
  import opened MaptInv
  import opened MaptUpdates
  import opened MaptGrid
  import opened MaptPieces
  import opened MaptSteps
  import opened MaptDecide
  import opened MaptExt
  import opened MaptWalk
  import opened MaptFill
  import opened MaptClear
  import opened MaptToken

  lemma NoneOwn(tb: Table, live: Live, name: nat, hole: Option<(nat, nat)>, bare: Option<nat>)
    requires Inv(tb, live, hole, bare) && name !in live
    ensures forall id, i :: !Own(tb, id, i, name)
  {
    hide N, InUse, Start, Stop, Structure, Highest, Covered, Apart, LiveOk, PieceOk;
  }

  /** A grant may start at the root. */
  lemma GrantStart(tb: Table, live: Live, s: Seg)
    requires Inv(tb, live, None, None) && Fits(live, s.lo, s)
    ensures BlockPre(tb, live, s, 0, None, s.lo, s.hi, None, tb, 3, false)
    ensures BlockPre(tb, live, s, 0, None, s.lo, s.hi, None, tb, 3, true)
    ensures Base(tb, s.lo) && Pfx(tb, 0) == 0 && Lead(tb, None) == 0
  {
    hide N, InUse, EntryBase, Links, Used, NonEmpty, Accounts, Pieces, Highest, HasMem, NodesOf, Ext, BlockSpan, LiveOk;
    NoneOwn(tb, live, s.lo, None, None);
    RootRange(s);
    assert Base(tb, s.lo);
    ExtSelf(tb, s.lo);
    assert Part(live, s.lo, s, s.lo, s.lo) == live;
    RootSpan();
  }

  lemma RootSpan()
    ensures BlockSpan(0) == ADDRESSES
  {}

  /** All stored: the segment is one of the live ones. */
  lemma GrantDone(tb: Table, live: Live, s: Seg, t0: Table)
    requires FillState(tb, live, s, s.hi + 1, None, t0)
    ensures Inv(tb, live[s.lo := s], None, None) && Ext(t0, tb, s.lo)
  {
    hide Inv, Ext, Base, Low, SpansBefore;
    assert s.(lo := s.lo, hi := s.hi + 1 - 1) == s;
  }

  /** Stored up to `stop` only: the clear that undoes it may start at the root. */
  lemma RollbackStart(tb: Table, live: Live, s: Seg, t0: Table, stop: nat, st: (nat, nat), lvl: nat, flag: bool)
    requires FillState(tb, live, s, stop, None, t0) && s.lo <= stop <= s.hi && StuckAt(tb, s.lo, st, stop, 0)
    requires SplitOk(s, lvl)
    ensures ClearBlockPre(tb, live, s, 0, None, s.lo, s.hi, stop, st, Some(t0), lvl, flag) && Pfx(tb, 0) == 0
    ensures Lead(tb, None) == 0
  {
    hide N, InUse, EntryBase, Links, Used, NonEmpty, Accounts, Pieces, Highest, HasMem, NodesOf, Ext, Base, BlockSpan,
         Low,
         SpansBefore, StuckAt, SplitOk, Part, LiveOk;
    RootRange(s);
    RootSpan();
    assert AboveClear(tb, s.lo, 0, 0);
  }

  /** After it, the table represents what it did and is what it was. */
  lemma RollbackDone(tb: Table, tb': Table, live: Live, s: Seg, t0: Table, stop: nat, st: (nat, nat), ok: bool)
    requires ClearPost(tb, tb', 0, live, s, s.hi + 1, stop, st, Some(t0), ok) && s.lo <= stop <= s.hi
    ensures Inv(tb', live, None, None) && Restored(t0, tb') && !ok
  {
    hide N, InUse, Keeps, KeepsOther, Pieces, Highest, Structure, Ext, Base, Low, SpansBefore, StuckAt, Restored;
    assert 0 in tb'.bitmap;
    hide SameAbove;
    assert Part(live, s.lo, s, stop, stop) == live;
    assert Inv(tb', live, None, None);
    NoneOwn(tb', live, s.lo, None, None);
    ExtRestores(t0, tb', s.lo);
  }

  /** The other segments, with the one to be removed. */
  lemma WithoutFits(live: Live, name: nat)
    requires LiveOk(live) && name in live && live[name].lo == name
    ensures Fits(live - {name}, name, live[name])
    ensures Part(live - {name}, name, live[name], name, live[name].hi + 1) == live
  {
    var s := live[name];
    assert s.(lo := name, hi := s.hi + 1 - 1) == s;
  }

  lemma UngrantStart(tb: Table, live: Live, s: Seg, t0: Option<Table>, st: (nat, nat), lvl: nat, flag: bool)
    requires Inv(tb, live, None, None) && s.lo in live && live[s.lo] == s && SplitOk(s, lvl)
    requires t0.Some? ==> Base(t0.value, s.lo) && Ext(t0.value, tb, s.lo)
    ensures ClearBlockPre(tb, live - {s.lo}, s, 0, None, s.lo, s.hi, s.hi + 1, st, t0, lvl, flag) && Pfx(tb, 0) == 0
    ensures Lead(tb, None) == 0
  {
    hide N, InUse, EntryBase, Links, Used, NonEmpty, Accounts, PiecesOk, Covered, Apart, HasMem, NodesOf, Ext, Base,
         BlockSpan, SpansBefore, StuckAt, SplitOk, Part, Fits;
    WithoutFits(live, s.lo);
    assert Low(tb, s.lo, s.lo, s.hi);
    hide Highest, Low, LiveOk;
    RootRange(s);
    RootSpan();
    assert AboveClear(tb, s.lo, 0, 0);
  }

  lemma UngrantDone(tb: Table, tb': Table, live: Live, s: Seg, t0: Option<Table>, st: (nat, nat), ok: bool)
    requires ClearPost(tb, tb', 0, live, s, s.hi + 1, s.hi + 1, st, t0, ok)
    ensures ok && Inv(tb', live, None, None) && (t0.Some? ==> Restored(t0.value, tb'))
  {
    hide N, InUse, Keeps, KeepsOther, Pieces, Highest, Structure, Ext, Base, Low, SpansBefore, StuckAt, Restored;
    assert 0 in tb'.bitmap;
    hide SameAbove;
    assert Part(live, s.lo, s, s.hi + 1, s.hi + 1) == live;
    assert Inv(tb', live, None, None);
    if t0.Some? {
      NoneOwn(tb', live, s.lo, None, None);
      ExtRestores(t0.value, tb', s.lo);
    }
  }

  lemma TokenStart(tb: Table, live: Live, s: Seg, op: TokenOp)
    requires Inv(tb, live, None, None) && s.lo in live && live[s.lo] == s && TokenFits(op, s)
    ensures TokBlock(tb, tb, live, s.lo, op, 0, None, s.lo, s.hi) && Pfx(tb, 0) == 0 && Lead(tb, None) == 0
  {
    hide N, InUse, EntryBase, Links, Used, NonEmpty, Accounts, PiecesOk, Covered, Apart, HasMem, NodesOf, BlockSpan,
         TokState, TokenFits, Highest;
    RootRange(s);
    RootSpan();
    TokStart(tb, live, s.lo, op);
    assert AboveClear(tb, s.lo, 0, 0);
  }
}
