/** Two tables that show where an expected property of the permission table fails. */
module MaptExamples {
  import opened Basics
  import opened MaptModel
  import opened MaptInv
  import opened MaptUpdates
  import opened MaptGrid
  import opened MaptPieces
  import opened MaptSteps
  import opened MaptExt
  import opened MaptNotice
  import opened MaptTheorems
  import opened MaptTable
  import opened Arith
  import opened SegMng
  import opened PermTable

  /** A segment without token check. */
  function Plain(lo: nat, hi: nat): Seg {
    Seg(lo, hi, 1, 0, false, 1, 0, 0)
  }

  const GIB: nat := 0x4000_0000

  /** 1.5 GiB from address 0, and a page at 2 GiB. */
  const LOW: Seg := Plain(0, GIB + GIB / 2 - 1)
  const PAGE_AT: Seg := Plain(2 * GIB, 2 * GIB + PAGE - 1)

  lemma Aligned()
    ensures IndexAt(0, LOW.lo) == 0 == IndexAt(0, LOW.hi) && OffsetAt(0, LOW.lo) == 0
    ensures Fits(map[], LOW.lo, LOW) && Fits(map[0 := LOW], PAGE_AT.lo, PAGE_AT)
  {}

  /** In the empty table the first segment goes to node 0 of the root. */
  lemma RootOwns(freeBit: bool, t: Table, limit: nat)
    requires Alone(EmptyTable(freeBit), t, LOW, 0, 0, 0, limit, true)
    ensures Own(t, 0, 0, 0)
  {
    var tb := EmptyTable(freeBit);
    EmptyInv(freeBit);
    EmptyNodes(freeBit);
    hide EmptyTable, N, HasMem, NodesOf, Links, Used, NonEmpty, Accounts, Pieces, Highest, BlockSpan, Shape, InUse,
         Filled;
    FilledInUse(freeBit, N(tb, 0, 0), 0, LOW, 0, limit, true);
    PutGet(tb, 0, 0, Filled(N(tb, 0, 0), 0, LOW, 0, limit, true));
    assert Filled(N(tb, 0, 0), 0, LOW, 0, limit, true).seg == 0 by { FilledSeg(N(tb, 0, 0), LOW, limit); }
  }

  lemma FilledSeg(n: Node, s: Seg, limit: nat)
    ensures Filled(n, 0, s, 0, limit, true).seg == 0
  {}

  /** What is stored stays: the root node still holds the first segment. */
  lemma StillOwns(t: Table, t': Table)
    requires Own(t, 0, 0, 0) && Ext(t, t', PAGE_AT.lo)
    ensures Own(t', 0, 0, 0)
  {
    hide N, InUse, NewBlocks;
    assert PlaceExt(t, t', 0);
    assert NodeExt(t.fb, N(t, 0, 0), N(t', 0, 0), PAGE_AT.lo);
  }

  lemma RootAt(t: Table)
    requires Shape(t)
    ensures Lv(t, 0) == 0 && Pfx(t, 0) == 0
  {
    hide HasMem, NodesOf, BlockSpan;
  }

  /** Node 0 of the root spans 512 GiB from 0, and node 0 of a level block below it the first GiB. */
  lemma Spanned(t: Table, c: nat)
    requires Lv(t, c) <= 1 && Pfx(t, c) == 0
    ensures Start(t, c, 0) == 0 && Stop(t, c, 0) == if Lv(t, c) == 0 then 512 * GIB else GIB
  {
    hide Lv, Pfx;
  }

  /** The second segment is held below node 0 of the root. */
  lemma LevelBelow(t: Table) returns (c: nat)
    requires Own(t, 0, 0, 0) && Inv(t, map[0 := LOW, PAGE_AT.lo := PAGE_AT], None, None)
    ensures IsNode(t, c, 0) && Lv(t, c) == 1 && Pfx(t, c) == 0 && c != 0
  {
    hide N, InUse, Start, Stop, Highest, PiecesOk, Apart, LiveOk, Used, NonEmpty, Accounts, Shape, LeadsTo, Next,
         FormsOk;
    RootAt(t);
    Spanned(t, 0);
    assert HeldAt(t, PAGE_AT.lo, PAGE_AT.lo);
    var jd, j :| Holds(t, jd, j, PAGE_AT.lo, PAGE_AT.lo);
    if Lv(t, jd) == 0 {
      Grid(t, 0, 0, jd, j, PAGE_AT.lo);
      assert false;
    }
    Nested(t, 0, 0, jd, j, PAGE_AT.lo);
    c := Next(N(t, 0, 0));
    assert LeadsTo(t, 0, 0, c);
    LeadsPlace(t, c);
  }

  lemma LeadsPlace(t: Table, c: nat)
    requires LeadsTo(t, 0, 0, c) && Lv(t, 0) == 0 && Start(t, 0, 0) == 0
    ensures c in t.bitmap && c != 0 && Lv(t, c) == 1 && Pfx(t, c) == 0
  {
    hide N, Start;
  }

  lemma InvRoot(t: Table, live: Live)
    requires Inv(t, live, None, None)
    ensures Lv(t, 0) == 0 && Pfx(t, 0) == 0
  {
    hide Shape, Pieces, Highest, Links, Used, NonEmpty, Accounts;
    RootAt(t);
  }

  /** Neither segment belongs at node 0 of that level: one is held above, the other does not meet it. */
  lemma NoneBelongs(t: Table, c: nat, x: nat, a: nat)
    requires Own(t, 0, 0, 0) && Lv(t, 0) < Lv(t, c) && Start(t, c, 0) == 0 && Stop(t, c, 0) == GIB && Spans(t, 0, 0, 0)
    ensures !Belongs(t, map[0 := LOW, PAGE_AT.lo := PAGE_AT], c, 0, x, a)
  {
    hide Own, Start, Stop, Lv;
  }

  /** So the node is not valid, although the first segment meets it. */
  lemma NotValid(t: Table, c: nat)
    requires Own(t, 0, 0, 0) && Inv(t, map[0 := LOW, PAGE_AT.lo := PAGE_AT], None, None)
    requires IsNode(t, c, 0) && Lv(t, c) == 1 && Pfx(t, c) == 0
    ensures !N(t, c, 0).valid && Spans(t, c, 0, 0)
  {
    hide Inv, N, Own, Lv, Pfx, Start, Stop, Belongs;
    var live := map[0 := LOW, PAGE_AT.lo := PAGE_AT];
    InvRoot(t, live);
    Spanned(t, 0);
    Spanned(t, c);
    ValidExactly(t, live, c, 0);
    forall x: nat, a: nat ensures !Belongs(t, live, c, 0, x, a) {
      NoneBelongs(t, c, x, a);
    }
  }

  /** A table with both: the first segment lies in a node of the root, so node 0 of the level below is not
      valid although the segment meets its span. */
  method ValidFails(freeBit: bool) returns (m: Mapt, ghost c: nat)
    ensures m.Represents(map[0 := LOW, PAGE_AT.lo := PAGE_AT])
    ensures IsNode(m.Tb(), c, 0) && Lv(m.Tb(), c) == 1 && !N(m.Tb(), c, 0).valid
    ensures Within(LOW, 0) && Spans(m.Tb(), c, 0, 0)
  {
    m := new Mapt(freeBit, true);
    EmptyNodes(freeBit);
    Aligned();
    hide EmptyTable, Inv, Fits, Ext, Base, Restored, N, IndexAt, OffsetAt, Told, Pushed;
    assert N(EmptyTable(freeBit), 0, 0) == ZERO;
    var ok := m.TableGrant(LOW, true, map[]);
    RootOwns(freeBit, m.Tb(), OffsetAt(0, LOW.hi));
    ghost var t := m.Tb();
    assert map[][0 := LOW] == map[0 := LOW];
    ok := m.TableGrant(PAGE_AT, true, map[0 := LOW]);
    StillOwns(t, m.Tb());
    assert map[0 := LOW][PAGE_AT.lo := PAGE_AT] == map[0 := LOW, PAGE_AT.lo := PAGE_AT];
    c := LevelBelow(m.Tb());
    NotValid(m.Tb(), c);
  }

  /** A record refused memory: the table permits the page, and no record says so. */
  method RecordLost(freeBit: bool) returns (t: PermTable, r: Result)
    ensures r == LostRecord && t.recs == map[] && Permits(t.tbl.Tb(), 0, 1, 0) && !t.Valid()
  {
    hide Inv, Ext, Base, Restored, Told, Pushed, EmptyTable, Pow2, DataOk, GrantRule, Granted, Permits, RecsOk;
    t := new PermTable(freeBit, true, 48);
    RootOnly(freeBit);
    FirstPage();
    r := t.Grant(0, PAGE, 1, 0, None, true, true, false);
    PermitsExact(t.tbl.Tb(), Granted(map[], 0, PAGE, 1, 0, None), 0, 1, 0);
  }

  lemma RootOnly(freeBit: bool)
    ensures EmptyTable(freeBit).bitmap == {0}
  {}

  lemma FirstPage()
    ensures 0 % Pow2(48) == 0 && DataOk(0, PAGE, true) && GrantRule(map[], 0, PAGE - 1, 1, 0, false) == NewSegment
    ensures LivePermits(Granted(map[], 0, PAGE, 1, 0, None), 0, 1, 0)
  {
    assert SegPermits(Granted(map[], 0, PAGE, 1, 0, None), 0, 0, 1, 0);
  }
}
