/** A table compared with an earlier one that it extends by pieces of one new segment only. Filling
    and clearing pieces of that segment keep the relation, and once no piece is left the table is the
    earlier one again. */
module MaptExt {
  import opened Basics
  import opened MaptModel
  import opened MaptInv
  import opened MaptUpdates
  import opened MaptBlocks
  import opened MaptGrid
  import opened MaptPieces
  import opened MaptSteps

  predicate NodeExt(fb: bool, n0: Node, n: Node, name: nat) {
    && (n0.valid ==> n.valid)
    && (Leading(n0) ==> Leading(n) && SameNext(n, n0))
    && (InUse(fb, n0) ==> InUse(fb, n) && SameOwn(n, n0))
    && (InUse(fb, n) && !InUse(fb, n0) ==> n.seg == name)
  }

  predicate PlaceExt(t0: Table, t: Table, id: nat) {
    && id in t.bitmap && id in t0.pos && id in t.pos && t.pos[id] == t0.pos[id]
    && (id != 0 ==> id in t0.up && id in t.up && t.up[id] == t0.up[id])
  }

  ghost predicate Places(t0: Table, t: Table) {
    t.fb == t0.fb && forall id :: id in t0.bitmap ==> PlaceExt(t0, t, id)
  }

  ghost predicate NodesExt(t0: Table, t: Table, name: nat) {
    forall id, i :: IsNode(t0, id, i) ==> NodeExt(t0.fb, N(t0, id, i), N(t, id, i), name)
  }

  /** Level blocks that were not there hold pieces of the new segment only. */
  ghost predicate NewBlocks(t0: Table, t: Table, name: nat) {
    forall id, i :: IsNode(t, id, i) && id !in t0.bitmap && InUse(t.fb, N(t, id, i)) ==> N(t, id, i).seg == name
  }

  ghost predicate Ext(t0: Table, t: Table, name: nat) {
    Places(t0, t) && NodesExt(t0, t, name) && NewBlocks(t0, t, name)
  }

  /** An earlier table that has no piece of the segment. */
  ghost predicate Base(t0: Table, name: nat) {
    Structure(t0, None, None) && forall id, i :: !Own(t0, id, i, name)
  }

  lemma ExtSelf(t: Table, name: nat)
    requires Base(t, name)
    ensures Ext(t, t, name)
  {
    hide InUse, N, HasMem, NodesOf, BlockSpan, EntryBase, LeadsTo;
  }

  // ---------------------------------------------------------------- steps

  /** A node replaced by one that still extends the earlier node. */
  lemma PutExt(t0: Table, t: Table, name: nat, id: nat, i: nat, n: Node)
    requires Ext(t0, t, name) && Shape(t) && IsNode(t, id, i)
    requires id in t0.bitmap ==> NodeExt(t0.fb, N(t0, id, i), n, name)
    requires InUse(t.fb, n) ==> n.seg == name
    ensures Ext(t0, Put(t, id, i, n), name)
  {
    hide InUse, N, HasMem, NodesOf, BlockSpan, EntryBase, LeadsTo, NodeExt;
    PutGet(t, id, i, n);
    hide Put, Shape;
  }

  lemma NodeExtAt(t0: Table, t: Table, name: nat, id: nat, i: nat)
    requires Base(t0, name) && Ext(t0, t, name) && IsNode(t0, id, i)
    ensures NodeExt(t0.fb, N(t0, id, i), N(t, id, i), name)
    ensures !InUse(t0.fb, N(t0, id, i)) || N(t0, id, i).seg != name
    ensures N(t0, id, i).valid ==> InUse(t0.fb, N(t0, id, i)) || Leading(N(t0, id, i))
  {
    hide InUse, N, NodeExt, Places, NewBlocks, Shape, Links, Accounts, NonEmpty;
    assert !Own(t0, id, i, name);
  }

  lemma StoreExt(t0: Table, t: Table, name: nat, s: Seg, id: nat, i: nat, f: nat)
    requires Base(t0, name) && Ext(t0, t, name) && Shape(t) && IsNode(t, id, i) && !InUse(t.fb, N(t, id, i))
    requires Start(t, id, i) <= f <= s.hi && f < Stop(t, id, i) && (f - Start(t, id, i)) % PAGE == 0
    ensures Ext(t0, Put(t, id, i, Stored(t, name, s, id, i, f)), name)
  {
    hide InUse, N, HasMem, NodesOf, BlockSpan, EntryBase, NodesExt, NewBlocks, Structure, Start, Stop, Put, Shape,
         Places;
    if id in t0.bitmap {
      NodeExtAt(t0, t, name, id, i);
      FbSame(t0, t);
      FilledInUse(t.fb, N(t, id, i), name, s, f - Start(t, id, i),
                  Min(Stop(t, id, i), s.hi + 1) - 1 - Start(t, id, i), !N(t, id, i).valid);
    }
    PutExt(t0, t, name, id, i, Stored(t, name, s, id, i, f));
  }

  lemma FbSame(t0: Table, t: Table)
    requires Places(t0, t)
    ensures t.fb == t0.fb && forall id :: id in t0.bitmap ==> PlaceExt(t0, t, id)
  {
    hide PlaceExt;
  }

  lemma RemoveExt(t0: Table, t: Table, name: nat, id: nat, i: nat)
    requires Base(t0, name) && Ext(t0, t, name) && Shape(t) && Own(t, id, i, name)
    ensures Ext(t0, Put(t, id, i, Removed(t.fb, N(t, id, i))), name)
  {
    hide N, HasMem, NodesOf, BlockSpan, EntryBase, NodesExt, NewBlocks, Structure, Put, Shape, Places;
    RemovedFree(t.fb, N(t, id, i));
    if id in t0.bitmap {
      NodeExtAt(t0, t, name, id, i);
      FbSame(t0, t);
      hide InUse;
    }
    PutExt(t0, t, name, id, i, Removed(t.fb, N(t, id, i)));
  }

  lemma AddExt(t0: Table, t: Table, name: nat, id: nat, i: nat, c: nat)
    requires Base(t0, name) && Ext(t0, t, name) && CanAdd(t, id, i, c)
    ensures Ext(t0, AddChild(t, id, i, c), name)
  {
    hide HasMem, NodesOf, BlockSpan, EntryBase, N, Links, Accounts, BlkOf, SubOf, AddChild, Structure;
    AddGet(t, id, i, c);
    FbSame(t0, t);
    var t' := AddChild(t, id, i, c);
    forall jd, j | IsNode(t0, jd, j) ensures NodeExt(t0.fb, N(t0, jd, j), N(t', jd, j), name) {
      assert PlaceExt(t0, t, jd);
      NodeExtAt(t0, t, name, jd, j);
      hide InUse;
      if jd == id && j == i {
        AttachUse(t.fb, N(t, id, i), id, c);
      }
    }
    assert Places(t0, t') by { hide NodesExt, NewBlocks, InUse, Attach; }
    assert NewBlocks(t0, t', name) by { AttachUse(t.fb, N(t, id, i), id, c); assert !InUse(t.fb, ZERO); hide InUse,
                                       Attach, NodesExt, Places; }
  }

  lemma AttachUse(fb: bool, n: Node, id: nat, c: nat)
    ensures InUse(fb, Attach(n, id, c)) == InUse(fb, n) && SameOwn(Attach(n, id, c), n)
  {}

  /** A node that holds no foreign piece and has no next level was not valid before. */
  lemma WipeExt(t0: Table, t: Table, name: nat, id: nat, i: nat)
    requires Base(t0, name) && Ext(t0, t, name) && Shape(t) && IsNode(t, id, i) && N(t, id, i).leaf
    requires !InUse(t.fb, N(t, id, i)) || N(t, id, i).seg == name
    ensures Ext(t0, Put(t, id, i, ZERO), name)
  {
    hide N, HasMem, NodesOf, BlockSpan, EntryBase, NodesExt, NewBlocks, Structure, Put, Shape, Places;
    if id in t0.bitmap {
      NodeExtAt(t0, t, name, id, i);
      FbSame(t0, t);
      hide InUse;
      assert !N(t0, id, i).valid;
    }
    assert !InUse(t.fb, ZERO);
    PutExt(t0, t, name, id, i, ZERO);
  }

  lemma ValidStays(t0: Table, t: Table, name: nat, id: nat) returns (k: nat)
    requires Base(t0, name) && Ext(t0, t, name) && id in t0.bitmap && id != 0
    ensures N(t, id, k).valid
  {
    hide N, HasMem, NodesOf, BlockSpan, EntryBase, NewBlocks, InUse, Links, Accounts, Used, CountValid;
    k := ValidIn(t0, id);
    assert NodeExt(t0.fb, N(t0, id, k), N(t, id, k), name);
  }

  lemma DropIsNew(t0: Table, t: Table, name: nat, id: nat)
    requires Base(t0, name) && Ext(t0, t, name) && CanDrop(t, id)
    ensures id !in t0.bitmap
  {
    hide N, Base, Ext, Shape, Links, Accounts;
    if id in t0.bitmap {
      var k := ValidStays(t0, t, name, id);
      assert false;
    }
  }

  lemma DropExt(t0: Table, t: Table, name: nat, id: nat)
    requires Base(t0, name) && Ext(t0, t, name) && CanDrop(t, id)
    ensures Ext(t0, DropBlock(t, id), name)
  {
    hide N, HasMem, NodesOf, BlockSpan, EntryBase, Accounts, CountValid, DropBlock, BlkOf, SubOf, Next, Links, Shape;
    DropIsNew(t0, t, name, id);
    DropGet(t, id);
    FbSame(t0, t);
    var t' := DropBlock(t, id);
    forall jd: nat, j: nat | IsNode(t0, jd, j) ensures NodeExt(t0.fb, N(t0, jd, j), N(t', jd, j), name) {
      NodeExtAt(t0, t, name, jd, j);
      if (jd, j) == t.up[id] {
        DropUpExt(t0, t, name, id);
        DetachUse(t.fb, N(t, jd, j));
        hide InUse;
      }
    }
    DetachUse(t.fb, N(t, t.up[id].0, t.up[id].1));
    hide NodeExt, InUse, Detach;
    assert Places(t0, t') by { hide NodesExt, NewBlocks; }
    assert NewBlocks(t0, t', name) by { hide NodesExt, Places; }
    hide Base, CanDrop;
  }

  lemma DetachUse(fb: bool, n: Node)
    ensures InUse(fb, Detach(n)) == InUse(fb, n) && SameOwn(Detach(n), n)
  {}

  lemma LeadStays(t0: Table, t: Table, name: nat, p: nat, j: nat)
    requires Base(t0, name) && Ext(t0, t, name) && IsNode(t0, p, j) && Leading(N(t0, p, j))
    ensures Next(N(t, p, j)) in t0.bitmap
  {
    hide N, HasMem, NodesOf, BlockSpan, EntryBase, Accounts, CountValid, InUse, NewBlocks, BlkOf, SubOf, Next, NonEmpty,
         Used, Shape;
    assert NodeExt(t0.fb, N(t0, p, j), N(t, p, j), name);
    NextSame(N(t, p, j), N(t0, p, j));
    assert LeadsTo(t0, p, j, Next(N(t0, p, j)));
  }

  /** The node above a new level block did not lead on before. */
  lemma DropUpExt(t0: Table, t: Table, name: nat, id: nat)
    requires Base(t0, name) && Ext(t0, t, name) && CanDrop(t, id) && id !in t0.bitmap && t.up[id].0 in t0.bitmap
    ensures !Leading(N(t0, t.up[id].0, t.up[id].1)) && Leading(N(t, t.up[id].0, t.up[id].1))
  {
    hide N, HasMem, NodesOf, BlockSpan, EntryBase, Accounts, CountValid, InUse, BlkOf, SubOf, Next, NonEmpty, Used,
         Shape,
         Base, Ext;
    var (p, j) := t.up[id];
    assert LeadsTo(t, p, j, id);
    LeadsValid(t, p, j, id);
    if Leading(N(t0, p, j)) {
      LeadStays(t0, t, name, p, j);
      assert false;
    }
  }

  lemma WipedExt(t0: Table, t: Table, name: nat, id: nat, i: nat, hole: Option<(nat, nat)>)
    requires Base(t0, name) && Ext(t0, t, name) && CanWipe(t, id, i, hole)
    requires !InUse(t.fb, N(t, id, i)) || N(t, id, i).seg == name
    ensures Ext(t0, Wiped(t, id, i), name)
  {
    hide N, InUse, Put, DropBlock, Ext, Base, Count, Shape, Links, Accounts, Used, NonEmpty;
    WipeExt(t0, t, name, id, i);
    WipeStructure(t, id, i, hole);
    var t1 := Put(t, id, i, ZERO);
    if Wiped(t, id, i) != t1 {
      DropExt(t0, t1, name, id);
    }
  }

  // ---------------------------------------------------------------- nothing left

  /** The same level blocks, links, counts, and own ranges. Fields of an own range that is not in use
      are not compared. */
  predicate SameNode(fb: bool, n0: Node, n: Node) {
    && n.valid == n0.valid && n.leaf == n0.leaf && SameNext(n, n0)
    && InUse(fb, n) == InUse(fb, n0) && (InUse(fb, n0) ==> SameOwn(n, n0))
  }

  ghost predicate Restored(t0: Table, t: Table) {
    && t.bitmap == t0.bitmap && t.blocks.Keys == t0.blocks.Keys
    && (forall b :: b in t0.blocks ==>
          t.blocks[b].levelCnt == t0.blocks[b].levelCnt && t.blocks[b].entryCnt == t0.blocks[b].entryCnt)
    && (forall id, i :: IsNode(t0, id, i) ==> SameNode(t0.fb, N(t0, id, i), N(t, id, i)))
  }

  lemma OldUp(t0: Table, t: Table, name: nat, c: nat)
    requires Base(t0, name) && Ext(t0, t, name) && c in t0.bitmap && c != 0
    ensures c in t.up && t.up[c].0 in t0.bitmap && t.up[c].1 < ENTRIES && Leading(N(t0, t.up[c].0, t.up[c].1))
  {
    hide N, HasMem, NodesOf, BlockSpan, EntryBase, Accounts, CountValid, InUse, BlkOf, SubOf, Next, NewBlocks,
         NodesExt, Shape;
    assert PlaceExt(t0, t, c);
    LeadsValid(t0, t0.up[c].0, t0.up[c].1, c);
  }

  /** A level block that was not there holds, in it or below it, a piece of the new segment. */
  lemma {:induction false} NewHolds(t0: Table, t: Table, name: nat, id: nat) returns (jd: nat, j: nat)
    requires Base(t0, name) && Ext(t0, t, name) && Structure(t, None, None) && id in t.bitmap && id !in t0.bitmap
    ensures Own(t, jd, j, name)
    decreases 4 - Lv(t, id)
  {
    hide N, HasMem, NodesOf, BlockSpan, EntryBase, Accounts, CountValid, InUse, BlkOf, SubOf, Next, Places, NodesExt;
    var k := ValidIn(t, id);
    if InUse(t.fb, N(t, id, k)) {
      jd, j := id, k;
    } else {
      var c := Next(N(t, id, k));
      assert LeadsTo(t, id, k, c);
      if c in t0.bitmap {
        OldUp(t0, t, name, c);
        assert false;
      }
      jd, j := NewHolds(t0, t, name, c);
    }
  }

  lemma SameNodes(t0: Table, t: Table, name: nat, id: nat, i: nat)
    requires Base(t0, name) && Ext(t0, t, name) && Structure(t, None, None) && IsNode(t0, id, i)
    requires t.bitmap == t0.bitmap && forall jd, j :: !Own(t, jd, j, name)
    ensures SameNode(t0.fb, N(t0, id, i), N(t, id, i))
  {
    hide N, HasMem, NodesOf, BlockSpan, EntryBase, Accounts, CountValid, BlkOf, SubOf, Next, NewBlocks, Shape, NonEmpty;
    assert forall n :: InUse(t0.fb, n) ==> n.valid;
    hide InUse;
    NodeExtAt(t0, t, name, id, i);
    FbSame(t0, t);
    assert !Own(t, id, i, name);
    assert NodeForm(N(t, id, i)) && NodeForm(N(t0, id, i));
    if Leading(N(t, id, i)) {
      var c := Next(N(t, id, i));
      assert LeadsTo(t, id, i, c);
      OldUp(t0, t, name, c);
    }
  }

  lemma SameCounts(m: seq<Node>, n: seq<Node>)
    requires |m| == |n| && forall i :: 0 <= i < |m| ==> m[i].valid == n[i].valid
    ensures CountValid(m) == CountValid(n)
  {}

  lemma LevelCounts(t0: Table, t: Table, id: nat)
    requires Shape(t0) && Shape(t) && Accounts(t0) && Accounts(t) && t.bitmap == t0.bitmap
    requires BlkOf(id) in t0.blocks && BlkOf(id) in t.blocks
    requires forall i :: IsNode(t0, id, i) ==> N(t, id, i).valid == N(t0, id, i).valid
    ensures Count(t, id) == Count(t0, id)
  {
    hide BlkOf, SubOf, BlockSpan, CountValid, Bits, BlockOk, HasMem;
    assert LevelOk(t0, id) && LevelOk(t, id);
    if id in t.bitmap {
      forall i | 0 <= i < ENTRIES ensures NodesOf(t, id)[i].valid == NodesOf(t0, id)[i].valid {
        assert IsNode(t0, id, i);
      }
      SameCounts(NodesOf(t, id), NodesOf(t0, id));
    }
  }

  lemma BlockHasBit(bitmap: set<nat>, b: nat) returns (id: nat)
    requires Bits(bitmap, b) > 0
    ensures id in bitmap && BlkOf(id) == b
  {
    var q := PER_BLOCK * b;
    id := if q in bitmap then q else if q + 1 in bitmap then q + 1 else if q + 2 in bitmap then q + 2 else q + 3;
  }

  lemma BlockKeys(t0: Table, t: Table, b: nat)
    requires Shape(t) && Accounts(t0) && Accounts(t) && t.bitmap == t0.bitmap && b in t0.blocks
    ensures b in t.blocks && t.blocks[b].levelCnt == t0.blocks[b].levelCnt
  {
    hide BlkOf, SubOf, BlockSpan, CountValid, Bits, LevelOk, NodesOf;
    assert BlockOk(t0, b, t0.blocks[b]);
    if b != 0 {
      var id := BlockHasBit(t0.bitmap, b);
      assert HasMem(t, id);
    }
    assert BlockOk(t, b, t.blocks[b]);
  }

  lemma SubId(b: nat, q: nat)
    requires q < PER_BLOCK
    ensures BlkOf(PER_BLOCK * b + q) == b && SubOf(PER_BLOCK * b + q) == q
  {}

  /** With no piece of the new segment left, the table is the earlier one. */
  lemma ExtRestores(t0: Table, t: Table, name: nat)
    requires Base(t0, name) && Ext(t0, t, name) && Structure(t, None, None) && forall id, i :: !Own(t, id, i, name)
    ensures Restored(t0, t)
  {
    hide N, HasMem, NodesOf, BlockSpan, EntryBase, CountValid, InUse, BlkOf, SubOf, Next, NewBlocks, NodesExt,
         LeadsTo, Own,
         SameNode, Used, NonEmpty, Links, Bits, LevelOk;
    FbSame(t0, t);
    assert t.bitmap == t0.bitmap by {
      forall id | id in t.bitmap ensures id in t0.bitmap {
        if id !in t0.bitmap {
          var jd, j := NewHolds(t0, t, name, id);
          assert false;
        }
      }
    }
    forall id, i | IsNode(t0, id, i) ensures SameNode(t0.fb, N(t0, id, i), N(t, id, i)) {
      SameNodes(t0, t, name, id, i);
    }
    RestoredBlocks(t0, t);
  }

  lemma RestoredBlocks(t0: Table, t: Table)
    requires Shape(t0) && Shape(t) && Accounts(t0) && Accounts(t) && t.bitmap == t0.bitmap
    requires forall id, i :: IsNode(t0, id, i) ==> SameNode(t0.fb, N(t0, id, i), N(t, id, i))
    ensures t.blocks.Keys == t0.blocks.Keys
    ensures forall b :: b in t0.blocks ==>
              t.blocks[b].levelCnt == t0.blocks[b].levelCnt && t.blocks[b].entryCnt == t0.blocks[b].entryCnt
  {
    hide N, NodesOf, BlockSpan, EntryBase, CountValid, InUse, BlkOf, SubOf, Bits, LevelOk;
    forall b ensures b in t0.blocks <==> b in t.blocks {
      if b in t0.blocks { BlockKeys(t0, t, b); }
      if b in t.blocks { BlockKeys(t, t0, b); }
    }
    forall b | b in t0.blocks
      ensures t.blocks[b].levelCnt == t0.blocks[b].levelCnt && t.blocks[b].entryCnt == t0.blocks[b].entryCnt
    {
      BlockKeys(t0, t, b);
      assert BlockOk(t0, b, t0.blocks[b]) && BlockOk(t, b, t.blocks[b]);
      forall q | 0 <= q < PER_BLOCK ensures t.blocks[b].entryCnt[q] == t0.blocks[b].entryCnt[q] {
        SubId(b, q);
        LevelCounts(t0, t, PER_BLOCK * b + q);
      }
    }
  }
}
