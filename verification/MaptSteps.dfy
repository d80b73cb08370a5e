/** The elementary steps of filling and clearing, and the invariant each keeps. */
module MaptSteps {
  import opened Basics
  import opened MaptModel
  import opened MaptInv
  import opened MaptUpdates
  import opened MaptBlocks
  import opened MaptGrid
  import opened MaptPieces

  // ---------------------------------------------------------------- new values of a node

  /** ummu_table_fill_node: the own range `[base, limit]` of segment `s`; a new node has no next level. */
  function Filled(n: Node, name: nat, s: Seg, base: nat, limit: nat, isNew: bool): Node {
    var m := n.(perm := s.perm, base := base, limit := limit, check := s.check, eBit := s.eBit, fBit := false,
                seg := name);
    var t := if s.check then m.(tok0 := s.tok0, tok1 := s.tok1, nonce := s.count) else m;
    if isNew then t.(leaf := true, valid := true) else t
  }

  /** The own range removed while the next level stays: the 0xFFF marker, or the free bit. */
  function Removed(fb: bool, n: Node): Node {
    if fb then n.(fBit := true) else n.(base := INVALID_ADDR, limit := INVALID_ADDR, perm := 0)
  }

  lemma FilledInUse(fb: bool, n: Node, name: nat, s: Seg, base: nat, limit: nat, isNew: bool)
    requires base % PAGE == 0 && (isNew || n.valid)
    ensures InUse(fb, Filled(n, name, s, base, limit, isNew))
  {}

  lemma RemovedFree(fb: bool, n: Node)
    ensures !InUse(fb, Removed(fb, n))
  {}

  // ---------------------------------------------------------------- keeping pieces

  lemma PutKeeps(tb: Table, id: nat, i: nat, n: Node)
    requires Shape(tb) && IsNode(tb, id, i)
    ensures KeepsBut(tb, Put(tb, id, i, n), id, i) && KeepsBut(Put(tb, id, i, n), tb, id, i)
    ensures !InUse(tb.fb, n) ==> Keeps(Put(tb, id, i, n), tb)
  {
    hide InUse, EntryBase, HasMem, NodesOf, BlockSpan, N, Shape;
    PutGet(tb, id, i, n);
    hide Put;
  }

  lemma PutSpan(tb: Table, id: nat, i: nat, n: Node, jd: nat, j: nat)
    requires Shape(tb) && IsNode(tb, id, i)
    ensures var tb' := Put(tb, id, i, n);
            && Start(tb', jd, j) == Start(tb, jd, j) && Stop(tb', jd, j) == Stop(tb, jd, j)
            && Lv(tb', jd) == Lv(tb, jd) && Pfx(tb', jd) == Pfx(tb, jd)
  {
    hide EntryBase, HasMem, NodesOf, BlockSpan, N, Shape;
    PutGet(tb, id, i, n);
    hide Put;
  }

  lemma AddKeeps(tb: Table, id: nat, i: nat, c: nat)
    requires CanAdd(tb, id, i, c)
    ensures Keeps(tb, AddChild(tb, id, i, c)) && Keeps(AddChild(tb, id, i, c), tb)
  {
    hide EntryBase, HasMem, NodesOf, BlockSpan, N, Links, Accounts, BlkOf, SubOf;
    AddGet(tb, id, i, c);
    hide AddChild;
    assert forall n, n' :: n' == Attach(n, id, c) ==> SameOwn(n, n') && SameOwn(n', n);
    assert InUse(tb.fb, Attach(N(tb, id, i), id, c)) == InUse(tb.fb, N(tb, id, i));
    assert !InUse(tb.fb, ZERO);
    hide InUse, Attach;
    assert c !in tb.bitmap;
    assert forall jd :: jd in tb.bitmap ==> jd in tb.pos;
    hide Shape;
  }

  lemma DropKeeps(tb: Table, id: nat)
    requires CanDrop(tb, id)
    ensures Keeps(tb, DropBlock(tb, id)) && Keeps(DropBlock(tb, id), tb)
  {
    hide EntryBase, HasMem, NodesOf, BlockSpan, N, Links, Accounts, BlkOf, SubOf;
    DropGet(tb, id);
    DropAbove(tb, id);
    hide DropBlock, Put, LeadsTo, Shape;
    assert forall n :: SameOwn(n, Detach(n)) && SameOwn(Detach(n), n);
    assert forall n :: InUse(tb.fb, Detach(n)) == InUse(tb.fb, n);
    assert !InUse(tb.fb, ZERO);
    hide InUse, Detach;
  }

  // ---------------------------------------------------------------- filling

  /** Segment `s` may be stored from `f` on at node `(id, i)`. */
  ghost predicate CanFill(tb: Table, live: Live, name: nat, s: Seg, id: nat, i: nat, f: nat, bare: Option<nat>) {
    && Fits(live, name, s) && Inv(tb, Part(live, name, s, s.lo, f), None, bare) && (bare == None || bare == Some(id))
    && SpansBefore(tb, name, f) && Low(tb, name, s.lo, s.hi)
    && IsNode(tb, id, i) && s.lo <= f <= s.hi && f == Max(Start(tb, id, i), s.lo) && f < Stop(tb, id, i)
    && (id != 0 ==> !(s.lo <= Pfx(tb, id) && Pfx(tb, id) + BlockSpan(Lv(tb, id)) - 1 <= s.hi))
  }

  /** The node with the part of `s` in its span stored. */
  function Stored(tb: Table, name: nat, s: Seg, id: nat, i: nat, f: nat): Node
    requires Start(tb, id, i) <= f <= s.hi && f < Stop(tb, id, i)
  {
    Filled(N(tb, id, i), name, s, f - Start(tb, id, i), Min(Stop(tb, id, i), s.hi + 1) - 1 - Start(tb, id, i),
           !N(tb, id, i).valid)
  }

  lemma FillAligned(tb: Table, live: Live, name: nat, s: Seg, id: nat, i: nat, f: nat, bare: Option<nat>)
    requires CanFill(tb, live, name, s, id, i, f, bare)
    ensures (f - Start(tb, id, i)) % PAGE == 0
  {
    hide BlockSpan, EntryBase, HasMem, NodesOf, Links, Accounts, Used, NonEmpty, Pieces, Highest, Low, SpansBefore;
    PageAligned(Lv(tb, id), Pfx(tb, id), i);
  }

  lemma FillStructure(tb: Table, id: nat, i: nat, n: Node, bare: Option<nat>)
    requires Structure(tb, None, bare) && (bare == None || bare == Some(id)) && IsNode(tb, id, i)
    requires NodeForm(n) && n.valid && InUse(tb.fb, n)
    requires N(tb, id, i).valid ==> n.leaf == N(tb, id, i).leaf && SameNext(n, N(tb, id, i))
    requires !N(tb, id, i).valid ==> n.leaf
    ensures Structure(Put(tb, id, i, n), None, None)
  {
    hide BlockSpan, EntryBase, HasMem, NodesOf, Links, Accounts, InUse, Shape, N, CountValid, BlkOf, SubOf, Put;
    PutShape(tb, id, i, n);
    PutLinks(tb, id, i, n);
    PutAccounts(tb, id, i, n);
    PutUsed(tb, id, i, n, None);
    PutNonEmpty(tb, id, i, n, None);
  }

  lemma FillForm(n: Node, name: nat, s: Seg, base: nat, limit: nat)
    requires NodeForm(n)
    ensures var m := Filled(n, name, s, base, limit, !n.valid);
            && NodeForm(m) && m.valid && (n.valid ==> m.leaf == n.leaf && SameNext(m, n))
            && (!n.valid ==> m.leaf) && m.seg == name
            && m.base == base && m.limit == limit
            && (s.check ==> m.nonce == s.count && m.tok0 == s.tok0 && m.tok1 == s.tok1) && AttrOk(m, s)
  {}

  lemma FillAt(tb: Table, live: Live, name: nat, s: Seg, id: nat, i: nat, f: nat, bare: Option<nat>)
    requires CanFill(tb, live, name, s, id, i, f, bare) && !InUse(tb.fb, N(tb, id, i))
    ensures FilledAt(tb, Put(tb, id, i, Stored(tb, name, s, id, i, f)), name, s, id, i, f)
    ensures Structure(Put(tb, id, i, Stored(tb, name, s, id, i, f)), None, None)
  {
    hide BlockSpan, EntryBase, HasMem, NodesOf, Accounts, InUse, CountValid, BlkOf, SubOf, Pieces, Highest, Low,
         SpansBefore,
         N, Filled, Fits, Start, Stop, LeadsTo, KeepsBut, Keeps, Lv, Pfx;
    var n := Stored(tb, name, s, id, i, f);
    FillAligned(tb, live, name, s, id, i, f, bare);
    assert NodeForm(N(tb, id, i));
    var base, limit := f - Start(tb, id, i), Min(Stop(tb, id, i), s.hi + 1) - 1 - Start(tb, id, i);
    FillForm(N(tb, id, i), name, s, base, limit);
    FilledInUse(tb.fb, N(tb, id, i), name, s, base, limit, !N(tb, id, i).valid);
    FillStructure(tb, id, i, n, bare);
    PutKeeps(tb, id, i, n);
    PutSpan(tb, id, i, n, id, i);
    PutGet(tb, id, i, n);
    hide Put, Structure, NodeForm, SameNext, AttrOk;
  }

  /** Storing the part of the segment in one node's span moves the boundary to the end of the span. */
  lemma StepFill(tb: Table, live: Live, name: nat, s: Seg, id: nat, i: nat, f: nat, bare: Option<nat>)
    requires CanFill(tb, live, name, s, id, i, f, bare) && !InUse(tb.fb, N(tb, id, i))
    ensures var tb' := Put(tb, id, i, Stored(tb, name, s, id, i, f)); var f' := Min(Stop(tb, id, i), s.hi + 1);
            && Inv(tb', Part(live, name, s, s.lo, f'), None, None) && Low(tb', name, s.lo, s.hi)
            && (Stop(tb, id, i) <= s.hi + 1 ==> SpansBefore(tb', name, f'))
  {
    hide BlockSpan, EntryBase, Structure, Put, Stored, InUse, N, Fits, Start, Stop, Pieces, Highest, Low, SpansBefore,
         FilledAt, Part;
    FillAt(tb, live, name, s, id, i, f, bare);
    FillPieces(tb, Put(tb, id, i, Stored(tb, name, s, id, i, f)), live, name, s, id, i, f);
  }

  /** Adding an empty next level changes no piece. */
  lemma StepAdd(tb: Table, live: Live, id: nat, i: nat, c: nat)
    requires Inv(tb, live, None, None) && CanAdd(tb, id, i, c)
    ensures Inv(AddChild(tb, id, i, c), live, None, Some(c))
  {
    hide CanAdd, Structure, Pieces, Highest, AddChild, Keeps;
    AddStructure(tb, id, i, c);
    AddKeeps(tb, id, i, c);
    PiecesSame(tb, AddChild(tb, id, i, c), live);
  }

  // ---------------------------------------------------------------- clearing

  /** ummu_table_clear_node on a node without a next level: the node is zeroed, and a level block left
      without valid nodes is freed. */
  function Wiped(tb: Table, id: nat, i: nat): Table {
    var t := Put(tb, id, i, ZERO);
    if Count(t, id) == 0 && id != 0 then DropBlock(t, id) else t
  }

  ghost predicate CanWipe(tb: Table, id: nat, i: nat, hole: Option<(nat, nat)>) {
    && Structure(tb, hole, None) && IsNode(tb, id, i) && N(tb, id, i).valid && N(tb, id, i).leaf
    && (hole == None || hole == Some((id, i)))
  }

  lemma WipeFirst(tb: Table, id: nat, i: nat, hole: Option<(nat, nat)>)
    requires CanWipe(tb, id, i, hole)
    ensures var t := Put(tb, id, i, ZERO);
            && Structure(t, None, if Count(t, id) == 0 && id != 0 then Some(id) else None)
            && Count(t, id) == CountValid(NodesOf(t, id))
  {
    hide BlockSpan, EntryBase, HasMem, NodesOf, Links, Accounts, InUse, Shape, N, CountValid, BlkOf, SubOf, Put, Count;
    PutShape(tb, id, i, ZERO);
    PutLinks(tb, id, i, ZERO);
    PutAccounts(tb, id, i, ZERO);
    PutCounts(tb, id, i, ZERO);
    PutUsed(tb, id, i, ZERO, None);
    PutNonEmpty(tb, id, i, ZERO, if Count(Put(tb, id, i, ZERO), id) == 0 && id != 0 then Some(id) else None);
  }

  lemma EmptyBlock(tb: Table, id: nat)
    requires Structure(tb, None, Some(id)) && id in tb.bitmap && id != 0 && CountValid(NodesOf(tb, id)) == 0
    ensures CanDrop(tb, id)
  {
    hide BlockSpan, EntryBase, HasMem, Accounts, InUse, CountValid, BlkOf, SubOf, Used, LeadsTo, LeadsOk,
         PlacesDiffer, NonEmpty;
    assert id in tb.up;
    hide UpsOk;
    forall i: nat ensures N(tb, id, i) == ZERO {
      if i < ENTRIES {
        assert NodeForm(N(tb, id, i)) by { assert IsNode(tb, id, i); }
        if N(tb, id, i).valid {
          CountPositive(NodesOf(tb, id), i);
        }
      }
    }
  }

  lemma WipeStructure(tb: Table, id: nat, i: nat, hole: Option<(nat, nat)>)
    requires CanWipe(tb, id, i, hole)
    ensures var tb' := Wiped(tb, id, i); var t := Put(tb, id, i, ZERO);
            && Structure(tb', if id in tb'.bitmap then None else Some(tb.up[id]), None)
            && (tb' == t || (CanDrop(t, id) && tb' == DropBlock(t, id) && id !in tb'.bitmap))
            && (id in tb'.bitmap ==> tb' == t) && (id !in tb'.bitmap ==> id in tb.up)
            && t.up == tb.up && t.pos == tb.pos && t.bitmap == tb.bitmap
  {
    hide BlockSpan, EntryBase, HasMem, NodesOf, Links, Accounts, InUse, Shape, N, CountValid, BlkOf, SubOf, Put, Count,
         Used, NonEmpty, DropBlock;
    WipeFirst(tb, id, i, hole);
    PutGet(tb, id, i, ZERO);
    var t := Put(tb, id, i, ZERO);
    if Count(t, id) == 0 && id != 0 {
      EmptyBlock(t, id);
      DropStructure(t, id);
      DropGet(t, id);
    }
  }

  /** Wiping removes the own range of the node and no other. */
  lemma WipeKeeps(tb: Table, id: nat, i: nat, hole: Option<(nat, nat)>)
    requires CanWipe(tb, id, i, hole)
    ensures var tb' := Wiped(tb, id, i);
            KeepsBut(tb, tb', id, i) && Keeps(tb', tb) && !(IsNode(tb', id, i) && InUse(tb'.fb, N(tb', id, i)))
    ensures !InUse(tb.fb, N(tb, id, i)) ==> Keeps(tb, Wiped(tb, id, i))
  {
    hide BlockSpan, EntryBase, HasMem, NodesOf, Links, Accounts, Shape, CountValid, BlkOf, SubOf, Count, Used, NonEmpty,
         Keeps, KeepsBut, DropBlock, N, Put;
    WipeStructure(tb, id, i, hole);
    hide Structure;
    PutKeeps(tb, id, i, ZERO);
    var t, tb' := Put(tb, id, i, ZERO), Wiped(tb, id, i);
    PutGet(tb, id, i, ZERO);
    hide Wiped, CanWipe;
    if tb' != t {
      DropKeeps(t, id);
      KeepsTrans(tb', t, tb);
      KeepsButTrans(tb, t, tb', id, i);
    }
    hide InUse;
    if !InUse(tb.fb, N(tb, id, i)) {
      KeepsButAll(tb, tb', id, i);
    }
  }

  lemma KeepsTrans(tb: Table, t: Table, tb': Table)
    requires Keeps(tb, t) && Keeps(t, tb')
    ensures Keeps(tb, tb')
  {
    hide InUse, N, EntryBase, Start, Stop, Lv, Pfx;
    forall jd: nat, j: nat | IsNode(tb, jd, j) && InUse(tb.fb, N(tb, jd, j)) ensures Kept(tb, tb', jd, j) {
      assert Kept(tb, t, jd, j);
      assert Kept(t, tb', jd, j);
    }
  }

  lemma KeepsButTrans(tb: Table, t: Table, tb': Table, id: nat, i: nat)
    requires KeepsBut(tb, t, id, i) && Keeps(t, tb')
    ensures KeepsBut(tb, tb', id, i)
  {
    hide InUse, N, EntryBase, Start, Stop, Lv, Pfx;
    forall jd: nat, j: nat | IsNode(tb, jd, j) && InUse(tb.fb, N(tb, jd, j)) && !(jd == id && j == i)
      ensures Kept(tb, tb', jd, j)
    {
      assert Kept(tb, t, jd, j);
      assert Kept(t, tb', jd, j);
    }
  }

  lemma KeepsButAll(tb: Table, tb': Table, id: nat, i: nat)
    requires KeepsBut(tb, tb', id, i) && !InUse(tb.fb, N(tb, id, i))
    ensures Keeps(tb, tb')
  {
    hide InUse, N, EntryBase, Start, Stop, Lv, Pfx;
  }

  lemma StopAligned(tb: Table, id: nat, i: nat)
    requires Shape(tb) && IsNode(tb, id, i)
    ensures Stop(tb, id, i) % PAGE == 0 && Start(tb, id, i) % PAGE == 0
  {
    hide BlockSpan, EntryBase, HasMem, NodesOf;
    PageAligned(Lv(tb, id), Pfx(tb, id), i);
  }

  /** Clearing a node that holds a piece and has no next level. */
  lemma StepWipe(tb: Table, live: Live, name: nat, s: Seg, g: nat, f: nat, id: nat, i: nat)
    requires Fits(live, name, s) && s.lo <= g < f <= s.hi + 1 && Inv(tb, Part(live, name, s, g, f), None, None)
    requires Own(tb, id, i, name) && Spans(tb, id, i, g) && N(tb, id, i).leaf
    ensures var tb' := Wiped(tb, id, i);
            Inv(tb', Part(live, name, s, Min(Stop(tb, id, i), f), f),
                if id in tb'.bitmap then None else Some(tb.up[id]), None)
  {
    hide BlockSpan, EntryBase, Pieces, Highest, Keeps, KeepsBut, Part, Wiped, N, Start, Stop, Links, Accounts, Shape,
         Used,
         NonEmpty;
    WipeStructure(tb, id, i, None);
    WipeKeeps(tb, id, i, None);
    StopAligned(tb, id, i);
    ClearPieces(tb, Wiped(tb, id, i), live, name, s, g, f, id, i);
    hide Structure, Own, InUse, Fits;
  }

  /** Clearing an unused node that has lost its next level. */
  lemma StepHole(tb: Table, live: Live, id: nat, i: nat)
    requires Inv(tb, live, Some((id, i)), None) && IsNode(tb, id, i)
    requires N(tb, id, i).valid && N(tb, id, i).leaf && !InUse(tb.fb, N(tb, id, i))
    ensures var tb' := Wiped(tb, id, i);
            Inv(tb', live, if id in tb'.bitmap then None else Some(tb.up[id]), None)
  {
    hide BlockSpan, EntryBase, Pieces, Highest, Keeps, KeepsBut, Wiped, N, Start, Stop, Links, Accounts, Shape, Used,
         NonEmpty, InUse;
    WipeStructure(tb, id, i, Some((id, i)));
    WipeKeeps(tb, id, i, Some((id, i)));
    PiecesSame(tb, Wiped(tb, id, i), live);
    hide Structure;
  }

  lemma HoleFilled(tb: Table, live: Live, id: nat, i: nat)
    requires Inv(tb, live, Some((id, i)), None) && InUse(tb.fb, N(tb, id, i))
    ensures Inv(tb, live, None, None)
  {
    hide Pieces, Highest, N, InUse, Links, Accounts, Shape, NonEmpty;
  }

  /** Removing the own range of a node that keeps its next level. */
  lemma StepRemove(tb: Table, live: Live, name: nat, s: Seg, g: nat, f: nat, id: nat, i: nat)
    requires Fits(live, name, s) && s.lo <= g < f <= s.hi + 1 && Inv(tb, Part(live, name, s, g, f), None, None)
    requires Own(tb, id, i, name) && Spans(tb, id, i, g) && !N(tb, id, i).leaf
    ensures Inv(Put(tb, id, i, Removed(tb.fb, N(tb, id, i))), Part(live, name, s, Min(Stop(tb, id, i), f), f), None,
                None)
  {
    hide BlockSpan, EntryBase, Pieces, Highest, Keeps, KeepsBut, Part, N, Start, Stop, Shape, Accounts, LeadsOk, UpsOk,
         PlacesDiffer, Put;
    var n := Removed(tb.fb, N(tb, id, i));
    RemovedFree(tb.fb, N(tb, id, i));
    assert NodeForm(N(tb, id, i));
    assert N(tb, id, i).valid && NodeForm(n) && Leading(n) && SameNext(n, N(tb, id, i));
    hide Removed, InUse;
    RemoveStructure(tb, id, i, n);
    PutKeeps(tb, id, i, n);
    PutGet(tb, id, i, n);
    StopAligned(tb, id, i);
    ClearPieces(tb, Put(tb, id, i, n), live, name, s, g, f, id, i);
  }

  lemma RemoveStructure(tb: Table, id: nat, i: nat, n: Node)
    requires Structure(tb, None, None) && IsNode(tb, id, i) && N(tb, id, i).valid
    requires NodeForm(n) && Leading(n) && Leading(N(tb, id, i)) && SameNext(n, N(tb, id, i))
    ensures Structure(Put(tb, id, i, n), None, None)
  {
    hide BlockSpan, EntryBase, HasMem, NodesOf, Links, Accounts, InUse, Shape, N, CountValid, BlkOf, SubOf, Put;
    PutShape(tb, id, i, n);
    PutLinks(tb, id, i, n);
    PutAccounts(tb, id, i, n);
    PutUsed(tb, id, i, n, None);
    PutNonEmpty(tb, id, i, n, None);
  }
}
