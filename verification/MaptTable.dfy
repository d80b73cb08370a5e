/** The permission table itself: allocation of level blocks, and filling, clearing and token updates by
    recursion on the level. */
module MaptTable {
  import opened Basics
  import opened MaptModel
  import opened MaptInv
  import opened MaptUpdates
  import opened MaptBlocks
  import opened MaptGrid
  import opened MaptPieces
  import opened MaptSteps
  import opened MaptDecide
  import opened MaptExt
  import opened MaptWalk
  import opened MaptFill
  import opened MaptClear
  import opened MaptToken
  import opened MaptOps
  import opened MaptNotice

  /** The MAPT block of a new level block is there, or has just been allocated. */
  function WithBlock(tb: Table, b: nat): (r: Table)
    ensures r.fb == tb.fb && r.bitmap == tb.bitmap && r.pos == tb.pos && r.up == tb.up
  {
    if b in tb.blocks then tb else tb.(blocks := tb.blocks[b := FreshBlock()])
  }

  lemma WithBlockGet(tb: Table, b: nat, id: nat)
    requires HasMem(tb, id)
    ensures HasMem(WithBlock(tb, b), id) && NodesOf(WithBlock(tb, b), id) == NodesOf(tb, id)
    ensures Count(WithBlock(tb, b), id) == Count(tb, id)
  {
    hide BlkOf, SubOf;
  }

  /** The table with level block `c` allocated and node `(id, i)` pointing at it, its type not yet set. */
  function Allocated(tb: Table, id: nat, i: nat, c: nat): Table {
    if HasMem(tb, id) && i < |NodesOf(tb, id)| then
      AddLevel(SetLevel(tb, id, NodesOf(tb, id)[i := Attach(N(tb, id, i), id, c).(leaf := N(tb, id, i).leaf)],
                        Count(tb, id)),
               c, Pos(Lv(tb, id) + 1, Start(tb, id, i)), (id, i))
    else tb
  }

  /** One more level block counted in MAPT block `b`. */
  function OneMoreLevel(blocks: map<nat, Block>, b: nat): map<nat, Block>
    requires b in blocks
  {
    blocks[b := blocks[b].(levelCnt := blocks[b].levelCnt + 1)]
  }

  /** Linking the node and then counting the level block in its MAPT block is adding the level block. */
  lemma AllocIsAdd(tb: Table, id: nat, i: nat, c: nat)
    requires HasMem(tb, id) && i < |NodesOf(tb, id)|
    ensures var b := BlkOf(c); HasMem(WithBlock(tb, b), id) && i < |NodesOf(WithBlock(tb, b), id)|
    ensures var b := BlkOf(c); var w := WithBlock(tb, b);
            var t := SetLevel(w, id, NodesOf(w, id)[i := Attach(N(w, id, i), id, c).(leaf := N(w, id, i).leaf)],
                              Count(w, id));
            && b in t.blocks
            && Allocated(tb, id, i, c)
               == t.(bitmap := tb.bitmap + {c},
                     blocks := OneMoreLevel(t.blocks, b),
                     pos := tb.pos[c := Pos(Lv(tb, id) + 1, Start(tb, id, i))], up := tb.up[c := (id, i)])
  {
    hide BlkOf, SubOf, FreshBlock, EntryBase;
    WithBlockGet(tb, BlkOf(c), id);
  }

  lemma LevelTwice(tb: Table, id: nat, m: seq<Node>, n: seq<Node>, cnt: nat, c: nat, place: Pos, above: (nat, nat))
    requires HasMem(tb, id)
    ensures var t := AddLevel(SetLevel(tb, id, m, cnt), c, place, above);
            && HasMem(t, id) && NodesOf(t, id) == m && Count(t, id) == cnt
            && SetLevel(t, id, n, cnt) == AddLevel(SetLevel(tb, id, n, cnt), c, place, above)
  {
    hide BlkOf, SubOf, FreshBlock;
    var b, q := BlkOf(id), SubOf(id);
    assert tb.blocks[b].nodes[q := m][q := n] == tb.blocks[b].nodes[q := n];
    assert tb.blocks[b].entryCnt[q := cnt][q := cnt] == tb.blocks[b].entryCnt[q := cnt];
    assert SetLevel(AddLevel(SetLevel(tb, id, m, cnt), c, place, above), id, n, cnt).blocks
        == AddLevel(SetLevel(tb, id, n, cnt), c, place, above).blocks;
  }

  /** Setting the type of the node completes the new level. */
  lemma AllocatedChild(tb: Table, id: nat, i: nat, c: nat)
    requires CanAdd(tb, id, i, c)
    ensures var t := Allocated(tb, id, i, c);
            && HasMem(t, id) && i < |NodesOf(t, id)|
            && SetLevel(t, id, NodesOf(t, id)[i := N(t, id, i).(leaf := false)], Count(t, id)) == AddChild(tb, id, i, c)
  {
    hide BlkOf, SubOf, FreshBlock, EntryBase, Links, Accounts, BlockSpan;
    assert HasMem(tb, id) && i < |NodesOf(tb, id)|;
    hide Shape;
    var n, l := N(tb, id, i), NodesOf(tb, id);
    var place, above := Pos(Lv(tb, id) + 1, Start(tb, id, i)), (id, i);
    LevelTwice(tb, id, l[i := Attach(n, id, c).(leaf := n.leaf)], l[i := Attach(n, id, c)], Count(tb, id), c, place,
               above);
    assert l[i := Attach(n, id, c).(leaf := n.leaf)][i := Attach(n, id, c)] == l[i := Attach(n, id, c)];
    assert Put(tb, id, i, Attach(n, id, c)) == SetLevel(tb, id, l[i := Attach(n, id, c)], Count(tb, id));
    hide SetLevel, AddLevel, HasMem, NodesOf, Count;
  }

  lemma LeafForm(tb: Table, id: nat, i: nat)
    requires Links(tb) && IsNode(tb, id, i) && N(tb, id, i).valid && N(tb, id, i).leaf
    ensures !N(tb, id, i).nextBlock
  {
    hide N, LeadsOk, UpsOk, PlacesDiffer;
    assert NodeForm(N(tb, id, i));
  }

  lemma WriteSame(tb: Table, id: nat, i: nat)
    requires HasMem(tb, id) && i < |NodesOf(tb, id)|
    ensures SetLevel(tb, id, NodesOf(tb, id)[i := N(tb, id, i)], Count(tb, id)) == tb
  {
    assert NodesOf(tb, id)[i := N(tb, id, i)] == NodesOf(tb, id);
    var t, b := SetLevel(tb, id, NodesOf(tb, id), Count(tb, id)), BlkOf(id);
    assert t.blocks[b].nodes == tb.blocks[b].nodes && t.blocks[b].entryCnt == tb.blocks[b].entryCnt;
    assert t.blocks == tb.blocks;
  }

  /** Writing a node and then counting it. */
  lemma WriteAndCount(tb: Table, id: nat, i: nat, n: Node)
    requires HasMem(tb, id) && i < |NodesOf(tb, id)| && n.valid && !N(tb, id, i).valid
    ensures var t := SetLevel(tb, id, NodesOf(tb, id)[i := n], Count(tb, id));
            && HasMem(t, id) && NodesOf(t, id) == NodesOf(tb, id)[i := n] && Count(t, id) == Count(tb, id)
            && SetLevel(t, id, NodesOf(t, id), Count(t, id) + 1) == Put(tb, id, i, n)
  {
    hide BlkOf, SubOf;
    var b, q, m := BlkOf(id), SubOf(id), NodesOf(tb, id)[i := n];
    assert tb.blocks[b].nodes[q := m][q := m] == tb.blocks[b].nodes[q := m];
    var k := Count(tb, id);
    assert tb.blocks[b].entryCnt[q := k][q := k + 1] == tb.blocks[b].entryCnt[q := k + 1];
    assert SetLevel(SetLevel(tb, id, m, k), id, m, k + 1).blocks == SetLevel(tb, id, m, k + 1).blocks;
  }

  lemma RemoveIsWrite(tb: Table, id: nat, i: nat)
    requires HasMem(tb, id) && i < |NodesOf(tb, id)|
    ensures Put(tb, id, i,
                Removed(tb.fb, N(tb, id, i))) == SetLevel(tb, id, NodesOf(tb, id)[i := Removed(tb.fb, N(tb, id, i))],
                                                          Count(tb, id))
  {
    hide BlkOf, SubOf;
  }

  lemma TokenIsWrite(tb: Table, op: TokenOp, id: nat, i: nat)
    requires HasMem(tb, id) && i < |NodesOf(tb, id)|
    ensures Put(tb, id, i,
                NewNode(op, N(tb, id, i))) == SetLevel(tb, id, NodesOf(tb, id)[i := NewNode(op, N(tb, id, i))],
                                                       Count(tb, id))
  {
    hide BlkOf, SubOf;
  }

  /** Zeroing a node and then uncounting it. */
  lemma ZeroAndCount(tb: Table, id: nat, i: nat)
    requires Shape(tb) && Accounts(tb) && IsNode(tb, id, i) && N(tb, id, i).valid
    ensures var t := SetLevel(tb, id, NodesOf(tb, id)[i := ZERO], Count(tb, id));
            && HasMem(t, id) && NodesOf(t, id) == NodesOf(tb, id)[i := ZERO] && Count(t, id) == Count(tb, id)
            && Count(tb, id) >= 1
            && SetLevel(t, id, NodesOf(t, id), Count(t, id) - 1) == Put(tb, id, i, ZERO)
  {
    hide BlkOf, SubOf, BlockSpan, CountValid, BlockOk;
    assert LevelOk(tb, id);
    CountPositive(NodesOf(tb, id), i);
    hide LevelOk, Accounts, Shape;
    var b, q, m, k := BlkOf(id), SubOf(id), NodesOf(tb, id)[i := ZERO], Count(tb, id);
    assert tb.blocks[b].nodes[q := m][q := m] == tb.blocks[b].nodes[q := m];
    assert tb.blocks[b].entryCnt[q := k][q := k - 1] == tb.blocks[b].entryCnt[q := k - 1];
    assert SetLevel(SetLevel(tb, id, m, k), id, m, k - 1).blocks == SetLevel(tb, id, m, k - 1).blocks;
  }

  /** The MAPT block of a level block that is freed last is not the only one. */
  lemma NotOnlyBlock(tb: Table, id: nat)
    requires Droppable(tb, id)
    ensures tb.blocks[BlkOf(id)].levelCnt > 0 && (tb.blocks[BlkOf(id)].levelCnt == 1 ==> |tb.blocks| > 1)
  {
    hide Shape, N, LevelOk, BlockOk;
    DropLevelCnt(tb, id);
    if tb.blocks[BlkOf(id)].levelCnt == 1 {
      assert {0, BlkOf(id)} <= tb.blocks.Keys && BlkOf(id) != 0;
      SubsetSize({0, BlkOf(id)}, tb.blocks.Keys);
    }
  }

  lemma SubsetSize(x: set<nat>, y: set<nat>)
    requires x <= y
    ensures |x| <= |y|
  {
    assert y == x + (y - x);
  }

  /** Resetting the node above after the level block is freed is the same as before. */
  lemma DropThenReset(t: Table, id: nat)
    requires CanDrop(t, id)
    ensures var (p, j) := t.up[id]; var d := DropLevel(t, id);
            && Droppable(t, id) && HasMem(d, p) && j < |NodesOf(d, p)| && N(d, p, j) == N(t, p, j)
            && SetLevel(d, p, NodesOf(d, p)[j := Detach(N(d, p, j))], Count(d, p)) == DropBlock(t, id)
  {
    hide BlkOf, SubOf, BlockSpan, CountValid, BlockOk, EntryBase, Next, LevelOk, Links, LeadsTo;
    DropAbove(t, id);
    var (p, j) := t.up[id];
    assert Leading(N(t, p, j));
    MemKeys(t);
    assert Droppable(t, id);
    DropLevelCnt(t, id);
    DropLevelGet(t, id);
    DropLevelNodes(t, id);
    var d := DropLevel(t, id);
    assert HasMem(t, p) && j < |NodesOf(t, p)|;
    hide Shape, Accounts;
    DropSet(t, id, p, NodesOf(t, p)[j := Detach(N(t, p, j))], Count(t, p));
    assert Put(t, p, j, Detach(N(t, p, j))) == SetLevel(t, p, NodesOf(t, p)[j := Detach(N(t, p, j))], Count(t, p));
  }

  lemma DropSet(t: Table, id: nat, p: nat, nodes: seq<Node>, cnt: nat)
    requires HasMem(t, p) && BlkOf(id) in t.blocks && t.blocks[BlkOf(id)].levelCnt > 0 && HasMem(DropLevel(t, id), p)
    ensures SetLevel(DropLevel(t, id), p, nodes, cnt) == DropLevel(SetLevel(t, p, nodes, cnt), id)
  {
    hide BlkOf, SubOf;
    assert SetLevel(DropLevel(t, id), p, nodes, cnt).blocks == DropLevel(SetLevel(t, p, nodes, cnt), id).blocks;
  }

  /** A part of the segment that meets a node not in use before is stored in it, and nothing else changes. */
  ghost predicate Alone(tb: Table, tb': Table, s: Seg, id: nat, i: nat, base: nat, limit: nat, ok: bool) {
    !N(tb, id, i).valid ==> ok && tb' == Put(tb, id, i, Filled(N(tb, id, i), s.lo, s, base, limit, true))
  }

  lemma AloneNew(tb: Table, s: Seg, id: nat, i: nat, base: nat, limit: nat)
    ensures Alone(tb, Put(tb, id, i, Filled(N(tb, id, i), s.lo, s, base, limit, true)), s, id, i, base, limit, true)
  {
    hide Put, Filled, N;
  }

  predicate Added(b0: set<nat>, b: set<nat>, n: nat) {
    |b| <= |b0| + n
  }

  /** Level blocks that a walk from a node of level `l` down may need: one for each level below and each
      of the ends at which the segment stops short. */
  function Quota(l: nat, sides: nat): nat {
    if l == 0 then 3 * sides else if l == 1 then 2 * sides else if l == 2 then sides else 0
  }

  lemma AddsOne(tb: Table, id: nat, i: nat, c: nat)
    requires CanAdd(tb, id, i, c)
    ensures |AddChild(tb, id, i, c).bitmap| == |tb.bitmap| + 1
  {
    hide Shape, Links, Accounts, AddChild;
    AddGet(tb, id, i, c);
  }

  /** When all level blocks are in use there are 2048 of them. */
  lemma AllInUse(bitmap: set<nat>)
    requires forall j :: 0 <= j < MAX_IDS ==> j in bitmap
    ensures |bitmap| >= MAX_IDS
  {
    var all := Below(MAX_IDS);
    assert all <= bitmap;
    SubsetSize(all, bitmap);
  }

  function Below(n: nat): (r: set<nat>)
    ensures |r| == n && forall j :: j in r <==> 0 <= j < n
  {
    if n == 0 then {} else Below(n - 1) + {n - 1}
  }

  predicate Pushed(g0: seq<Plbi>, g: seq<Plbi>, k: nat) {
    g0 <= g && |g| <= |g0| + k
  }

  /** A walk of level `l` keeps the parting level and the flag that were set above it. */
  predicate Walked(s: Seg, l: nat, lvl0: nat, flag0: bool, lvl: nat, flag: bool) {
    && SplitOk(s, lvl) && (lvl0 < l ==> lvl == lvl0 && flag == flag0) && (lvl0 >= l ==> lvl >= l)
  }

  lemma WalkKept(s: Seg, l: nat, p: nat, n: nat, lvl0: nat, flag0: bool, lvl: nat, flag: bool)
    requires WalkIn(s, lvl0, flag0, l, p, n) && Walked(s, l, lvl0, flag0, lvl, flag)
    ensures WalkIn(s, lvl, flag, l, p, n)
  {}

  function EmptyTable(fb: bool): Table {
    Table(fb, {0}, map[0 := FreshBlock().(levelCnt := 1)], map[0 := Pos(0, 0)], map[])
  }

  /** The table with only a root holds nothing and is well formed. */
  lemma EmptyInv(fb: bool)
    ensures Inv(EmptyTable(fb), map[], None, None)
  {
    var tb := EmptyTable(fb);
    EmptyNodes(fb);
    hide EmptyTable, FreshBlock, Zeros, HasMem, NodesOf, Count, BlockSpan;
    assert Structure(tb, None, None) by { EmptyAccounts(fb); hide N, Accounts, CountValid; }
    assert forall id, i :: IsNode(tb, id, i) ==> !InUse(tb.fb, N(tb, id, i));
    assert PiecesOk(tb, map[]) && Covered(tb, map[]) && Apart(tb);
  }

  lemma EmptyNodes(fb: bool)
    ensures var tb := EmptyTable(fb);
            && tb.fb == fb && tb.bitmap == {0} && tb.blocks.Keys == {0} && HasMem(tb, 0) && |NodesOf(tb, 0)| == ENTRIES
            && Lv(tb, 0) == 0 && Pfx(tb, 0) == 0 && 0 in tb.pos && BlockSpan(0) == ADDRESSES && BlkOf(0) == 0
            && (forall jd :: BlkOf(jd) == 0 ==> HasMem(tb, jd) && |NodesOf(tb, jd)| == ENTRIES && Count(tb, jd) == 0)
            && (forall jd, i :: N(tb, jd, i) == ZERO)
  {
    hide SubOf;
    var tb := EmptyTable(fb);
    forall jd: nat, i: nat ensures N(tb, jd, i) == ZERO {
      if BlkOf(jd) == 0 {
        assert HasMem(tb, jd) && NodesOf(tb, jd) == Zeros();
      }
    }
  }

  lemma EmptyAccounts(fb: bool)
    ensures Accounts(EmptyTable(fb))
  {
    hide SubOf, CountValid, FreshBlock;
    EmptyNodes(fb);
    var tb := EmptyTable(fb);
    EmptyBlocks(fb);
    hide EmptyTable, HasMem, NodesOf, Count;
    forall id | BlkOf(id) in tb.blocks ensures LevelOk(tb, id) {
      if id == 0 {
        assert forall i :: 0 <= i < ENTRIES ==> NodesOf(tb, 0)[i] == N(tb, 0, i);
        CountNone(NodesOf(tb, 0));
      }
    }
  }

  lemma EmptyBlocks(fb: bool)
    ensures var tb := EmptyTable(fb); BlockOk(tb, 0, tb.blocks[0])
  {
    hide Zeros;
  }

  class Mapt {
    const fb: bool                    // free_bit
    const expan: bool                 // more than one MAPT block may be allocated
    var bitmap: set<nat>
    var blocks: map<nat, Block>
    var blockCnt: nat
    var gather: seq<Plbi>
    var lvl: nat                      // lvl and head_flag of the running walk
    var headFlag: bool
    ghost var pos: map<nat, Pos>
    ghost var up: map<nat, (nat, nat)>

    ghost function Tb(): Table
      reads this
    {
      Table(fb, bitmap, blocks, pos, up)
    }

    function NodeAt(id: nat, i: nat): (r: Node)
      reads this
      ensures r == N(Tb(), id, i)
    {
      var b := BlkOf(id);
      if b in blocks && |blocks[b].nodes| == PER_BLOCK && |blocks[b].entryCnt| == PER_BLOCK
         && i < |blocks[b].nodes[SubOf(id)]|
      then blocks[b].nodes[SubOf(id)][i] else ZERO
    }

    function EntryCnt(id: nat): (r: nat)
      reads this
      ensures r == Count(Tb(), id)
    {
      var b := BlkOf(id);
      if b in blocks && |blocks[b].nodes| == PER_BLOCK && |blocks[b].entryCnt| == PER_BLOCK
      then blocks[b].entryCnt[SubOf(id)] else 0
    }

    /** The level block a node, or the dummy node above the root, leads to. */
    function LeadOf(pre: Option<(nat, nat)>): (r: nat)
      reads this
      ensures r == Lead(Tb(), pre)
    {
      if pre.None? then 0 else Next(NodeAt(pre.value.0, pre.value.1))
    }

    /** The table represents exactly the live segments. */
    ghost predicate Represents(live: Live)
      reads this
    {
      Inv(Tb(), live, None, None) && blockCnt == |blocks|
    }

    /** A table with the root level block only. */
    constructor (freeBit: bool, mayExpand: bool)
      ensures Represents(map[]) && fb == freeBit && expan == mayExpand && gather == [] && Tb() == EmptyTable(freeBit)
    {
      fb, expan := freeBit, mayExpand;
      bitmap, blocks, blockCnt := {0}, map[0 := FreshBlock().(levelCnt := 1)], 1;
      gather, lvl, headFlag := [], 3, false;
      pos, up := map[0 := Pos(0, 0)], map[];
      new;
      EmptyInv(fb);
    }

    // -------------------------------------------------------------- memory

    method WriteNode(id: nat, i: nat, n: Node)
      requires HasMem(Tb(), id) && i < |NodesOf(Tb(), id)|
      modifies this`blocks
      ensures Tb() == SetLevel(old(Tb()), id, NodesOf(old(Tb()), id)[i := n], Count(old(Tb()), id))
      ensures |blocks| == old(|blocks|)
    {
      var b, q := BlkOf(id), SubOf(id);
      var blk := blocks[b];
      blocks := blocks[b := blk.(nodes := blk.nodes[q := blk.nodes[q][i := n]])];
      assert blk.entryCnt[q := blk.entryCnt[q]] == blk.entryCnt;
      assert blocks.Keys == old(blocks).Keys;
    }

    method ModifyEntryCnt(id: nat, cnt: int)
      requires HasMem(Tb(), id) && Count(Tb(), id) + cnt >= 0
      modifies this`blocks
      ensures Tb() == SetLevel(old(Tb()), id, NodesOf(old(Tb()), id), Count(old(Tb()), id) + cnt)
      ensures |blocks| == old(|blocks|)
    {
      var b, q := BlkOf(id), SubOf(id);
      var blk := blocks[b];
      blocks := blocks[b := blk.(entryCnt := blk.entryCnt[q := blk.entryCnt[q] + cnt])];
      assert blk.nodes[q := blk.nodes[q]] == blk.nodes;
      assert blocks.Keys == old(blocks).Keys;
    }

    // -------------------------------------------------------------- level blocks

    /** find_first_zero_bit over level_block_bitmap. */
    method FindFirstZero() returns (c: nat)
      ensures c <= MAX_IDS && (c < MAX_IDS ==> c !in bitmap) && forall j :: 0 <= j < c ==> j in bitmap
    {
      c := 0;
      while c < MAX_IDS && c in bitmap
        invariant c <= MAX_IDS && forall j :: 0 <= j < c ==> j in bitmap
      {
        c := c + 1;
      }
    }

    /** ummu_alloc_new_mapt_block: refused when the table may not expand; the allocations inside may
        also fail if memory is short, which leaves nothing behind. */
    method AllocMaptBlock(b: nat, mem: bool) returns (ok: bool)
      requires b !in blocks && b < MAX_IDS / PER_BLOCK && blockCnt == |blocks|
      modifies this`blocks, this`blockCnt
      ensures ok ==> blocks == old(blocks)[b := FreshBlock()] && (b == 0 || expan)
      ensures !ok ==> blocks == old(blocks) && (!mem || (b != 0 && !expan))
      ensures blockCnt == |blocks|
    {
      if b != 0 && !expan {
        return false;
      }
      ok := mem;
      if !mem {
        ok := *;
      }
      if ok {
        blocks := blocks[b := FreshBlock()];
        blockCnt := blockCnt + 1;
        assert blocks.Keys == old(blocks).Keys + {b};
      }
    }

    /** set_bit and level_cnt: level block `c` is in use. */
    method CountLevelBlock(c: nat, ghost place: Pos, ghost above: (nat, nat))
      requires BlkOf(c) in blocks
      modifies this`bitmap, this`blocks, this`pos, this`up
      ensures |blocks| == old(|blocks|)
      ensures Tb() == old(Tb()).(bitmap := old(bitmap) + {c},
                                 blocks := OneMoreLevel(old(blocks), BlkOf(c)),
                                 pos := old(pos)[c := place], up := old(up)[c := above])
    {
      bitmap := bitmap + {c};
      blocks := OneMoreLevel(blocks, BlkOf(c));
      assert blocks.Keys == old(blocks).Keys;
      pos, up := pos[c := place], up[c := above];
    }

    /** The second half of ummu_alloc_level_block: point the node at level block `c` and count it. */
    method LinkLevelBlock(id: nat, i: nat, c: nat, ghost tb: Table)
      requires HasMem(tb, id) && i < |NodesOf(tb, id)| && Tb() == WithBlock(tb, BlkOf(c))
      modifies this`bitmap, this`blocks, this`pos, this`up
      ensures |blocks| == old(|blocks|)
      ensures Tb() == Allocated(tb, id, i, c)
    {
      hide EntryBase, Start, BlkOf, SubOf, FreshBlock, Allocated, HasMem, NodesOf, Count, WithBlock;
      AllocIsAdd(tb, id, i, c);
      var b := BlkOf(c);
      var n := NodeAt(id, i);
      assert n == N(WithBlock(tb, b), id, i);
      WriteNode(id, i, n.(nextBlock := BlkOf(id) != b, nextIndex := b, nextOffset := ENTRIES * SubOf(c)));
      hide SetLevel, N;
      CountLevelBlock(c, Pos(Lv(tb, id) + 1, Start(tb, id, i)), (id, i));
    }

    /** Why a level block may be refused: memory is short, the table may not expand, or all are in use. */
    predicate Refused(mem: bool)
      reads this
    {
      !mem || !expan || forall j :: 0 <= j < MAX_IDS ==> j in bitmap
    }

    /** ummu_alloc_level_block: the lowest free level block, zeroed, linked from node `(id, i)`. */
    method AllocLevelBlock(id: nat, i: nat, mem: bool) returns (c: Option<nat>)
      requires HasMem(Tb(), id) && i < |NodesOf(Tb(), id)| && blockCnt == |blocks| && !N(Tb(), id, i).nextBlock
      modifies this`bitmap, this`blocks, this`blockCnt, this`pos, this`up
      ensures blockCnt == |blocks|
      ensures c.None? ==> Tb() == old(Tb()) && Refused(mem)
      ensures c.Some? ==> c.value < MAX_IDS && c.value !in old(bitmap) && forall j :: 0 <= j < c.value ==>
                j in old(bitmap)
      ensures c.Some? ==> Tb() == Allocated(old(Tb()), id, i, c.value)
    {
      hide HasMem, NodesOf, SubOf, FreshBlock, Allocated;
      ghost var tb := Tb();
      var k := FindFirstZero();
      if k >= MAX_IDS {
        return None;
      }
      WriteSame(tb, id, i);
      WriteNode(id, i, NodeAt(id, i).(nextBlock := false));
      var b := BlkOf(k);
      if b !in blocks {
        var ok := AllocMaptBlock(b, mem);
        if !ok {
          return None;
        }
      }
      LinkLevelBlock(id, i, k, tb);
      c := Some(k);
    }

    ghost predicate CanExtend(id: nat, i: nat)
      reads this
    {
      && Shape(Tb()) && Links(Tb()) && Accounts(Tb()) && IsNode(Tb(), id, i) && Lv(Tb(), id) < 3
      && N(Tb(), id, i).valid && N(Tb(), id, i).leaf && blockCnt == |blocks|
    }

    /** A next level for node `(id, i)`, which had none. */
    method AddNextLevel(id: nat, i: nat, mem: bool) returns (c: Option<nat>)
      requires CanExtend(id, i)
      modifies this`bitmap, this`blocks, this`blockCnt, this`pos, this`up
      ensures blockCnt == |blocks|
      ensures c.None? ==> Tb() == old(Tb()) && Refused(mem)
      ensures c.Some? ==> CanAdd(old(Tb()), id, i, c.value) && Tb() == AddChild(old(Tb()), id, i, c.value)
    {
      LeafForm(Tb(), id, i);
      hide FormsOk, Shape, CanAdd, Links, Accounts, BlockSpan, EntryBase, Start, HasMem, NodesOf, Allocated, AddChild,
           SetLevel;
      ghost var tb := Tb();
      c := AllocLevelBlock(id, i, mem);
      if c.Some? {
        AllocatedChild(tb, id, i, c.value);
        var n := NodeAt(id, i);
        WriteNode(id, i, n.(leaf := false));
      }
    }

    // -------------------------------------------------------------- invalidations

    /** update_ummu_gather: a full buffer drops the entry. */
    method UpdateGather(p: Plbi)
      modifies this`gather
      ensures gather == if |old(gather)| >= GATHER_MAX then old(gather) else old(gather) + [p]
    {
      if |gather| < GATHER_MAX {
        gather := gather + [p];
      }
    }

    /** ummu_table_type_switch_plbi: the range queued is the node's own range, at its absolute address. */
    method TypeSwitchPlbi(s: Seg, nodeBase: nat, nodeLimit: nat, level: nat, ghost start: nat)
      requires s.lo <= s.hi && level < 3 && WalkIn(s, lvl, headFlag, level + 1, start, Span(level))
      requires start % Span(level) == 0
      requires nodeBase <= nodeLimit
      modifies this`gather
      ensures gather == if |old(gather)| >= GATHER_MAX then old(gather)
                        else old(gather) + [OsVa(start + nodeBase, nodeLimit - nodeBase + 1)]
    {
      EndInSpan(s, lvl, headFlag, level, start);
      var full := End(s, lvl, headFlag);
      UpdateGather(OsVa(full - full % Span(level) + nodeBase, nodeLimit - nodeBase + 1));
    }

    // -------------------------------------------------------------- filling

    /** ummu_table_fill_node on a new node, counted. */
    method FillNew(s: Seg, id: nat, i: nat, base: nat, limit: nat)
      requires HasMem(Tb(), id) && i < |NodesOf(Tb(), id)| && !N(Tb(), id, i).valid
      modifies this`blocks
      ensures Tb() == Put(old(Tb()), id, i, Filled(N(old(Tb()), id, i), s.lo, s, base, limit, true))
      ensures |blocks| == old(|blocks|)
    {
      var n := Filled(NodeAt(id, i), s.lo, s, base, limit, true);
      WriteAndCount(Tb(), id, i, n);
      WriteNode(id, i, n);
      hide HasMem, NodesOf, Count, SetLevel, Put;
      ModifyEntryCnt(id, 1);
    }

    /** ummu_table_fill_node on a node whose own range was removed. */
    method FillAgain(s: Seg, id: nat, i: nat, base: nat, limit: nat)
      requires HasMem(Tb(), id) && i < |NodesOf(Tb(), id)| && N(Tb(), id, i).valid
      modifies this`blocks
      ensures Tb() == Put(old(Tb()), id, i, Filled(N(old(Tb()), id, i), s.lo, s, base, limit, false))
      ensures |blocks| == old(|blocks|)
    {
      WriteNode(id, i, Filled(NodeAt(id, i), s.lo, s, base, limit, false));
    }

    /** ummu_table_fill_head_node: the marker 0xFFF says that the own range was removed. */
    method FillHead(s: Seg, level: nat, id: nat, i: nat, lo: nat, hi: nat, mem: bool, ghost live: Live,
                    ghost bare: Option<nat>, ghost t0: Table)
      returns (ok: bool, ghost stop: nat, ghost st: (nat, nat))
      requires HeadPre(Tb(), live, s, level, id, i, lo, hi, bare, t0, lvl, headFlag) && blockCnt == |blocks| && !fb
      modifies this
      ensures blockCnt == |blocks|
      ensures FillPost(old(Tb()), Tb(), live, s, Start(old(Tb()), id, i) + lo, Start(old(Tb()), id, i) + hi + 1, t0,
                       ok, stop, st)
      ensures Walked(s, level + 1, old(lvl), old(headFlag), lvl, headFlag)
      ensures Pushed(old(gather), gather, Sides(Span(level), lo, hi))
      ensures Told(old(Tb()), Tb(), s.lo, gather, None)
      ensures (!ok ==> Refused(mem)) && Added(old(bitmap), bitmap, Quota(level, Sides(Span(level), lo, hi)))
      ensures Alone(old(Tb()), Tb(), s, id, i, lo, hi, ok)
      decreases 4 - level, 1
    {
      hide Told, FillState, AtNode, FillPost, Start, Put, Filled, Span, WalkIn, HasMem, NodesOf, SplitOk;
      ghost var tb := Tb();
      assert SplitOk(s, lvl);
      hide HeadPre;
      stop, st := 0, (0, 0);
      var n := NodeAt(id, i);
      if n.valid {
        HeadInUse(tb, live, s, level, id, i, lo, hi, bare, t0, lvl, headFlag);
        if n.base % PAGE == INVALID_ADDR && n.limit % PAGE == INVALID_ADDR {
          HeadFilled(tb, live, s, level, id, i, lo, hi, bare, t0, lvl, headFlag);
          FillAgain(s, id, i, lo, hi);
          TypeSwitchPlbi(s, 0, INVALID_ADDR, level, Start(tb, id, i));
          HeadTold(tb, live, s, level, id, i, lo, hi, bare, t0, lvl, headFlag, Filled(n, s.lo, s, lo, hi, false),
                   gather);
          return true, stop, st;
        }
        ok, stop, st := FillNextLevel(s, level, id, i, lo, hi, mem, live, t0);
      } else {
        HeadFilled(tb, live, s, level, id, i, lo, hi, bare, t0, lvl, headFlag);
        FillNew(s, id, i, lo, hi);
        HeadTold(tb, live, s, level, id, i, lo, hi, bare, t0, lvl, headFlag, Filled(n, s.lo, s, lo, hi, true), gather);
        ok := true;
      }
    }

    /** The shared tail of both head functions: a next level if there is none, and the walk of it. */
    method FillNextLevel(s: Seg, level: nat, id: nat, i: nat, lo: nat, hi: nat, mem: bool, ghost live: Live,
                         ghost t0: Table)
      returns (ok: bool, ghost stop: nat, ghost st: (nat, nat))
      requires HeadPre(Tb(), live, s, level, id, i, lo, hi, None, t0, lvl, headFlag) && blockCnt == |blocks|
      requires N(Tb(), id, i).valid && InUse(fb, N(Tb(), id, i))
      modifies this
      ensures blockCnt == |blocks|
      ensures FillPost(old(Tb()), Tb(), live, s, Start(old(Tb()), id, i) + lo, Start(old(Tb()), id, i) + hi + 1, t0,
                       ok, stop, st)
      ensures Walked(s, level + 1, old(lvl), old(headFlag), lvl, headFlag)
      ensures Pushed(old(gather), gather, Sides(Span(level), lo, hi))
      ensures Told(old(Tb()), Tb(), s.lo, gather, None)
      ensures (!ok ==> Refused(mem)) && Added(old(bitmap), bitmap, Quota(level, Sides(Span(level), lo, hi)))
      decreases 4 - level, 0
    {
      hide Told, Notice, FillPost, HeadPre, Shape, Links, Accounts, InUse, Start, Span, WalkIn, HasMem, NodesOf,
           AddChild,
           BlockSpan, SplitOk, BlockPre,
           CanAdd, Lead, Places, Pfx, Sides;
      ghost var tb, f, end := Tb(), Start(Tb(), id, i) + lo, Start(Tb(), id, i) + hi + 1;
      HeadCanExtend(tb, live, s, level, id, i, lo, hi, t0, lvl, headFlag);
      HeadInUse(tb, live, s, level, id, i, lo, hi, None, t0, lvl, headFlag);
      if NodeAt(id, i).leaf {
        HeadStuck(tb, live, s, level, id, i, lo, hi, t0, lvl, headFlag);
        var c := AddNextLevel(id, i, mem);
        if c.None? {
          ToldSame(tb, s.lo, gather, None);
          return false, f, (id, i);
        }
        HeadToNewBlock(tb, live, s, level, id, i, lo, hi, c.value, t0, lvl, headFlag);
        ghost var t1, g := Tb(), gather;
        ToldAdd(tb, s.lo, id, i, c.value, g, None);
        AddsOne(tb, id, i, c.value);
        ok, stop, st := FillByLevel(s, level + 1, Some((id, i)), lo, hi, mem, live, Some(c.value), t0);
        FillPostAfter(tb, t1, Tb(), live, s, f, end, t0, ok, stop, st);
        ToldTrans(tb, t1, Tb(), s.lo, g, gather, None, None);
      } else {
        HeadToBlock(tb, live, s, level, id, i, lo, hi, t0, lvl, headFlag);
        ok, stop, st := FillByLevel(s, level + 1, Some((id, i)), lo, hi, mem, live, None, t0);
      }
    }

    /** ummu_table_fill_head_node_free_bit: the free bit says that the own range was removed. */
    method FillHeadFreeBit(s: Seg, level: nat, id: nat, i: nat, lo: nat, hi: nat, mem: bool, ghost live: Live,
                           ghost bare: Option<nat>, ghost t0: Table)
      returns (ok: bool, ghost stop: nat, ghost st: (nat, nat))
      requires HeadPre(Tb(), live, s, level, id, i, lo, hi, bare, t0, lvl, headFlag) && blockCnt == |blocks| && fb
      modifies this
      ensures blockCnt == |blocks|
      ensures FillPost(old(Tb()), Tb(), live, s, Start(old(Tb()), id, i) + lo, Start(old(Tb()), id, i) + hi + 1, t0,
                       ok, stop, st)
      ensures Walked(s, level + 1, old(lvl), old(headFlag), lvl, headFlag)
      ensures Pushed(old(gather), gather, Sides(Span(level), lo, hi))
      ensures Told(old(Tb()), Tb(), s.lo, gather, None)
      ensures (!ok ==> Refused(mem)) && Added(old(bitmap), bitmap, Quota(level, Sides(Span(level), lo, hi)))
      ensures Alone(old(Tb()), Tb(), s, id, i, lo, hi, ok)
      decreases 4 - level, 1
    {
      hide Told, FillState, AtNode, FillPost, Start, Put, Filled, Span, WalkIn, HasMem, NodesOf, SplitOk;
      ghost var tb := Tb();
      assert SplitOk(s, lvl);
      hide HeadPre;
      stop, st := 0, (0, 0);
      var n := NodeAt(id, i);
      if !n.valid {
        HeadFilled(tb, live, s, level, id, i, lo, hi, bare, t0, lvl, headFlag);
        FillNew(s, id, i, lo, hi);
        HeadTold(tb, live, s, level, id, i, lo, hi, bare, t0, lvl, headFlag, Filled(n, s.lo, s, lo, hi, true), gather);
        return true, stop, st;
      }
      HeadInUse(tb, live, s, level, id, i, lo, hi, bare, t0, lvl, headFlag);
      if n.fBit {
        HeadFilled(tb, live, s, level, id, i, lo, hi, bare, t0, lvl, headFlag);
        FillAgain(s, id, i, lo, hi);
        UpdateGather(OsN(n.nextIndex, n.nextOffset));
        HeadTold(tb, live, s, level, id, i, lo, hi, bare, t0, lvl, headFlag, Filled(n, s.lo, s, lo, hi, false), gather);
        return true, stop, st;
      }
      ok, stop, st := FillNextLevel(s, level, id, i, lo, hi, mem, live, t0);
    }

    /** One round of the loop over a level block: a node between the ends, or one of the ends. */
    method FillEntry(s: Seg, level: nat, id: nat, i: nat, lo: nat, hi: nat, mem: bool, ghost live: Live,
                     ghost bare: Option<nat>, ghost t0: Table)
      returns (ok: bool, ghost stop: nat, ghost st: (nat, nat))
      requires EntryPre(Tb(), live, s, level, id, i, lo, hi, bare, t0, lvl, headFlag) && blockCnt == |blocks|
      modifies this
      ensures blockCnt == |blocks|
      ensures var p := Pfx(old(Tb()), id);
              FillPost(old(Tb()), Tb(), live, s, Reach(level, p, lo, hi, i), Reach(level, p, lo, hi, i + 1), t0, ok,
                       stop, st)
      ensures old(lvl) == level ==> lvl == level
      ensures Walked(s, level, old(lvl), old(headFlag), lvl, headFlag) && (old(lvl) > level ==> lvl > level)
      ensures Pushed(old(gather), gather, SidesAt(level, lo, hi, i))
      ensures Told(old(Tb()), Tb(), s.lo, gather, None)
      ensures (!ok ==> Refused(mem)) && Added(old(bitmap), bitmap, Quota(level, SidesAt(level, lo, hi, i)))
      ensures Alone(old(Tb()), Tb(), s, id, i, NodeBase(level, lo, i), NodeLimit(level, hi, i), ok)
      decreases 4 - level, 2
    {
      hide Alone, Told, Notice, FillPost, Start, Put, Filled, Span, BlockSpan, HasMem, NodesOf, SplitOk, Reach,
           IndexAt, OffsetAt,
           FillState, Shared, Pfx, Lv, WalkIn, Sides, Left, Right, N;
      ghost var tb := Tb();
      var base, limit := IndexAt(level, lo), IndexAt(level, hi);
      var nodeBase, nodeLimit := NodeBase(level, lo, i), NodeLimit(level, hi, i);
      NodeSides(level, lo, hi, i);
      if base < i < limit {
        EntryMiddle(tb, live, s, level, id, i, lo, hi, bare, t0, lvl, headFlag);
        EntryTold(tb, live, s, level, id, i, lo, hi, bare, t0, lvl, headFlag,
                  Filled(NodeAt(id, i), s.lo, s, nodeBase, nodeLimit, true), gather);
        FillNew(s, id, i, nodeBase, nodeLimit);
        AloneNew(tb, s, id, i, nodeBase, nodeLimit);
        return true, 0, (0, 0);
      }
      EntryHead(tb, live, s, level, id, i, lo, hi, bare, t0, lvl, headFlag);
      hide EntryPre;
      if lvl == level {
        headFlag := i == base;
      }
      if fb {
        ok, stop, st := FillHeadFreeBit(s, level, id, i, nodeBase, nodeLimit, mem, live, bare, t0);
      } else {
        ok, stop, st := FillHead(s, level, id, i, nodeBase, nodeLimit, mem, live, bare, t0);
      }
    }

    method FillByLevel(s: Seg, level: nat, pre: Option<(nat, nat)>, lo: nat, hi: nat, mem: bool, ghost live: Live,
                       ghost bare: Option<nat>, ghost t0: Table)
      returns (ok: bool, ghost stop: nat, ghost st: (nat, nat))
      requires BlockPre(Tb(), live, s, level, pre, lo, hi, bare, t0, lvl, headFlag) && blockCnt == |blocks|
      modifies this
      ensures blockCnt == |blocks|
      ensures var p := Pfx(old(Tb()), Lead(old(Tb()), pre));
              FillPost(old(Tb()), Tb(), live, s, p + lo, p + hi + 1, t0, ok, stop, st)
      ensures Walked(s, level, old(lvl), old(headFlag), lvl, headFlag)
      ensures Pushed(old(gather), gather, Sides(BlockSpan(level), lo, hi))
      ensures Told(old(Tb()), Tb(), s.lo, gather, None)
      ensures (!ok ==> Refused(mem)) && Added(old(bitmap), bitmap, Quota(level, Sides(BlockSpan(level), lo, hi)))
      ensures IndexAt(level, lo) == IndexAt(level, hi) ==>
                Alone(old(Tb()), Tb(), s, Lead(old(Tb()), pre), IndexAt(level, lo), OffsetAt(level, lo),
                      OffsetAt(level, hi), ok)
      decreases 4 - level, 3
    {
      hide Alone, Told, Notice, EntryPre, FillPost, FillState, Span, BlockSpan, SplitOk, Reach, IndexAt, OffsetAt,
           Pfx, Left,
           Right, N, Next, Places, WalkAt, LvlAt, BlockPre, Start;
      ghost var tb, g0, v0, h0 := Tb(), gather, lvl, headFlag;
      BlockToEntry(tb, live, s, level, pre, lo, hi, bare, t0, lvl, headFlag);
      var id := LeadOf(pre);
      ghost var p := Pfx(tb, id);
      var base, limit := IndexAt(level, lo), IndexAt(level, hi);
      lvl := LvlAt(lvl, level, lo, hi);
      var i := base;
      ghost var b := bare;
      ToldSame(tb, s.lo, gather, None);
      while i <= limit
        invariant base <= i <= limit + 1 && blockCnt == |blocks|
        invariant i <= limit ==> EntryPre(Tb(), live, s, level, id, i, lo, hi, b, t0, lvl, headFlag)
        invariant i > limit ==> FillPost(tb, Tb(), live, s, p + lo, p + hi + 1, t0, true, 0, (0, 0))
        invariant Places(tb, Tb()) && Pfx(Tb(), id) == p
        invariant Walked(s, level, v0, h0, lvl, headFlag)
        invariant i == base ==> Tb() == tb
        invariant i > base == limit ==> Alone(tb, Tb(), s, id, base, OffsetAt(level, lo), OffsetAt(level, hi), true)
        invariant Told(tb, Tb(), s.lo, gather, None)
        invariant Added(tb.bitmap, bitmap,
                        Quota(level, SidesDone(level, lo, hi, i)))
        invariant Pushed(g0, gather, SidesDone(level, lo, hi, i))
      {
        ghost var t, g, v, h := Tb(), gather, lvl, headFlag;
        ok, stop, st := FillEntry(s, level, id, i, lo, hi, mem, live, b, t0);
        ToldTrans(tb, t, Tb(), s.lo, g, gather, None, None);
        FillEntryAfter(tb, t, Tb(), live, s, level, id, i, lo, hi, b, t0, v, h, ok, stop, st);
        if !ok {
          return;
        }
        if i < limit {
          EntryStep(t, Tb(), live, s, level, id, i, lo, hi, b, t0, v, h, lvl, headFlag, stop, st);
        }
        i, b := i + 1, None;
      }
      ok, stop, st := true, 0, (0, 0);
    }

    // -------------------------------------------------------------- clearing

    /** ummu_free_level_block: the root stays; the last level block of a MAPT block takes it along. */
    method FreeLevelBlock(id: nat)
      requires blockCnt == |blocks| && (id != 0 ==> Droppable(Tb(), id))
      modifies this`bitmap, this`blocks, this`blockCnt
      ensures blockCnt == |blocks|
      ensures Tb() == if id == 0 then old(Tb()) else DropLevel(old(Tb()), id)
    {
      hide BlkOf, SubOf, N, LevelOk, BlockOk, Shape;
      if id != 0 {
        NotOnlyBlock(Tb(), id);
        hide Accounts;
        var b := BlkOf(id);
        var cnt := blocks[b].levelCnt - 1;
        ghost var keys := blocks.Keys;
        bitmap := bitmap - {id};
        if cnt == 0 && blockCnt > 1 {
          blocks := blocks - {b};
          blockCnt := blockCnt - 1;
          assert blocks.Keys == keys - {b};
        } else {
          blocks := blocks[b := blocks[b].(levelCnt := cnt)];
          assert blocks.Keys == keys;
        }
      }
    }

    /** ummu_table_clear_node: a level block left without valid nodes is freed and the node above reset. */
    method ClearNode(id: nat, i: nat, pre: Option<(nat, nat)>, ghost hole: Option<(nat, nat)>)
      requires CanWipe(Tb(), id, i, hole) && blockCnt == |blocks|
      requires (pre.None? <==> id == 0) && (pre.Some? ==> id in up && up[id] == pre.value)
      modifies this`bitmap, this`blocks, this`blockCnt
      ensures Tb() == Wiped(old(Tb()), id, i) && blockCnt == |blocks|
    {
      hide BlkOf, SubOf, BlockSpan, BlockOk, LevelOk, Links, Used, NonEmpty, CountValid;
      ghost var tb := Tb();
      ZeroAndCount(tb, id, i);
      WipeFirst(tb, id, i, hole);
      assert HasMem(tb, id) && i < |NodesOf(tb, id)|;
      hide Accounts, Shape, SetLevel, HasMem, NodesOf, Count, DropBlock, DropLevel, Put, N;
      WriteNode(id, i, ZERO);
      ModifyEntryCnt(id, -1);
      ghost var t := Tb();
      assert t == Put(tb, id, i, ZERO);
      if EntryCnt(id) == 0 && pre.Some? {
        EmptyBlock(t, id);
        DropThenReset(t, id);
        FreeLevelBlock(id);
        var n := NodeAt(pre.value.0, pre.value.1);
        WriteNode(pre.value.0, pre.value.1, n.(leaf := true, nextBlock := false, nextIndex := 0, nextOffset := 0));
      }
    }

    /** The own range is the segment's: it is removed, and the node too if nothing hangs below it. */
    method ClearOwn(s: Seg, id: nat, pre: Option<(nat, nat)>, i: nat, lo: nat, hi: nat,
                    ghost live: Live, ghost f: nat, ghost st: (nat, nat), ghost t0: Option<Table>)
      requires ClearAt(Tb(), live, s, id, i, lo, hi, f, st, t0) && blockCnt == |blocks| && Own(Tb(), id, i, s.lo)
      requires (pre.None? <==> id == 0) && (pre.Some? ==> id in up && up[id] == pre.value)
      modifies this`bitmap, this`blocks, this`blockCnt
      ensures blockCnt == |blocks|
      ensures ClearPost(old(Tb()), Tb(), id, live, s, Start(old(Tb()), id, i) + hi + 1, f, st, t0, true)
      ensures Told(old(Tb()), Tb(), s.lo, gather, pre)
    {
      hide Told, ClearAt, ClearPost, Start, HasMem, NodesOf, Wiped, Structure, Inv, Shape, Links, StuckAt, Low,
           SpansBefore,
           AboveClear, Span, Fits, Part, Own;
      ghost var tb := Tb();
      ClearAtFacts(tb, live, s, id, i, lo, hi, f, st, t0);
      var n := NodeAt(id, i);
      if !n.leaf {
        ClearRemove(tb, live, s, id, i, lo, hi, f, st, t0);
        RemoveIsWrite(tb, id, i);
        OwnTold(tb, s.lo, id, i, Removed(fb, n), gather, pre);
        WriteNode(id, i, Removed(fb, n));
      } else {
        ClearWipe(tb, live, s, id, i, lo, hi, f, st, t0);
        ToldWipe(tb, s.lo, id, i, None, gather, pre);
        ClearNode(id, i, pre, None);
      }
    }

    /** An unused node: the segment is below; if the next level goes, the node goes too. */
    method ClearUnused(s: Seg, level: nat, id: nat, pre: Option<(nat, nat)>, i: nat, lo: nat, hi: nat,
                       ghost live: Live, ghost f: nat, ghost st: (nat, nat), ghost t0: Option<Table>)
      returns (ok: bool)
      requires ClearHeadPre(Tb(), live, s, level, id, i, lo, hi, f, st, t0, lvl, headFlag) && blockCnt == |blocks|
      requires !InUse(fb, N(Tb(), id, i)) && (pre.None? <==> id == 0) && (pre.Some? ==> id in up && up[id] == pre.value)
      modifies this
      ensures blockCnt == |blocks|
      ensures ClearPost(old(Tb()), Tb(), id, live, s, Start(old(Tb()), id, i) + hi + 1, f, st, t0, ok)
      ensures Walked(s, level + 1, old(lvl), old(headFlag), lvl, headFlag)
      ensures Pushed(old(gather), gather, Cap(level, Sides(Span(level), lo, hi)))
      ensures Told(old(Tb()), Tb(), s.lo, gather, pre)
      decreases 4 - level, 0
    {
      hide Told, ClearPost, Start, Span, WalkIn, SplitOk, Wiped, Structure, CanWipe, Cap, Sides, InUse, BlockSpan, Pfx,
           ClearBlockPre, ClearHeadPre, Lead, N;
      ghost var tb, end, v0, h0 := Tb(), Start(Tb(), id, i) + hi + 1, lvl, headFlag;
      assert !Own(tb, id, i, s.lo);
      ClearGo(tb, live, s, level, id, i, lo, hi, f, st, t0, lvl, headFlag);
      var n := NodeAt(id, i);
      ok := ClearByLevel(s, level + 1, Some((id, i)), lo, hi, live, f, st, t0);
      WalkKept(s, level + 1, Start(tb, id, i), Span(level), v0, h0, lvl, headFlag);
      ClearReturn(tb, Tb(), live, s, id, i, end, f, st, t0, ok);
      ReturnSame(tb, Tb(), live, s, id, i, end, f, st, t0, ok);
      ghost var t1, g1 := Tb(), gather;
      if NodeAt(id, i).leaf {
        ToldWipe(t1, s.lo, id, i, Some((id, i)), gather, pre);
        ClearNode(id, i, pre, Some((id, i)));
        if fb {
          UpdateGather(OsN(n.nextIndex, n.nextOffset));
        } else {
          TypeSwitchPlbi(s, 0, INVALID_ADDR, level, Start(tb, id, i));
        }
        ToldMore(t1, Tb(), s.lo, g1, gather, pre);
      } else {
        ToldSame(t1, s.lo, gather, pre);
      }
      ToldTrans(tb, t1, Tb(), s.lo, g1, gather, Some((id, i)), pre);
    }

    /** A node in use by another segment: the segment is below. Without a next level it stops here. */
    method ClearForeign(s: Seg, level: nat, id: nat, i: nat, lo: nat, hi: nat,
                        ghost live: Live, ghost f: nat, ghost st: (nat, nat), ghost t0: Option<Table>)
      returns (ok: bool)
      requires ClearHeadPre(Tb(), live, s, level, id, i, lo, hi, f, st, t0, lvl, headFlag) && blockCnt == |blocks|
      requires InUse(fb, N(Tb(), id, i)) && !Own(Tb(), id, i, s.lo)
      modifies this
      ensures blockCnt == |blocks|
      ensures ClearPost(old(Tb()), Tb(), id, live, s, Start(old(Tb()), id, i) + hi + 1, f, st, t0, ok)
      ensures Walked(s, level + 1, old(lvl), old(headFlag), lvl, headFlag)
      ensures Pushed(old(gather), gather, Cap(level, Sides(Span(level), lo, hi)))
      ensures Told(old(Tb()), Tb(), s.lo, gather, None)
      decreases 4 - level, 0
    {
      hide Told, ClearAt, ClearPost, Start, Span, WalkIn, SplitOk, Structure, Cap, Sides, InUse, BlockSpan, Pfx,
           ClearBlockPre, Lead, N, Own;
      ghost var tb, end, v0, h0 := Tb(), Start(Tb(), id, i) + hi + 1, lvl, headFlag;
      var n := NodeAt(id, i);
      ClearRange(tb, live, s, id, i, lo, hi, f, st, t0);
      if n.leaf {
        ClearStop(tb, live, s, id, i, lo, hi, f, st, t0);
        ToldSame(tb, s.lo, gather, None);
        return false;
      }
      ClearGo(tb, live, s, level, id, i, lo, hi, f, st, t0, lvl, headFlag);
      hide ClearHeadPre;
      ok := ClearByLevel(s, level + 1, Some((id, i)), lo, hi, live, f, st, t0);
      WalkKept(s, level + 1, Start(tb, id, i), Span(level), v0, h0, lvl, headFlag);
      ClearReturnUsed(tb, Tb(), live, s, id, i, end, f, st, t0, ok);
      ReturnSame(tb, Tb(), live, s, id, i, end, f, st, t0, ok);
      ghost var g1 := gather;
      if NodeAt(id, i).leaf {
        TypeSwitchPlbi(s, n.base, n.limit, level, Start(tb, id, i));
      }
      ToldSame(Tb(), s.lo, gather, None);
      ToldTrans(tb, Tb(), Tb(), s.lo, g1, gather, Some((id, i)), None);
    }

    /** ummu_table_clear_head_node. */
    method ClearHead(s: Seg, level: nat, id: nat, pre: Option<(nat, nat)>, i: nat, lo: nat, hi: nat,
                     ghost live: Live, ghost f: nat, ghost st: (nat, nat), ghost t0: Option<Table>)
      returns (ok: bool)
      requires ClearHeadPre(Tb(), live, s, level, id, i, lo, hi, f, st, t0, lvl, headFlag) && blockCnt == |blocks|
      requires !fb
      requires (pre.None? <==> id == 0) && (pre.Some? ==> id in up && up[id] == pre.value)
      modifies this
      ensures blockCnt == |blocks|
      ensures ClearPost(old(Tb()), Tb(), id, live, s, Start(old(Tb()), id, i) + hi + 1, f, st, t0, ok)
      ensures Walked(s, level + 1, old(lvl), old(headFlag), lvl, headFlag)
      ensures Pushed(old(gather), gather, Cap(level, Sides(Span(level), lo, hi)))
      ensures Told(old(Tb()), Tb(), s.lo, gather, pre)
      decreases 4 - level, 1
    {
      hide Told, Notice, ClearAt, ClearPost, Start, Span, WalkIn, SplitOk, Cap, Sides, N, Own;
      ghost var tb := Tb();
      ClearValid(tb, live, s, id, i, lo, hi, f, st, t0);
      var n := NodeAt(id, i);
      if n.base % PAGE == INVALID_ADDR && n.limit % PAGE == INVALID_ADDR {
        ok := ClearUnused(s, level, id, pre, i, lo, hi, live, f, st, t0);
        return;
      }
      ClearMatch(tb, live, s, id, i, lo, hi, f, st, t0);
      if n.base == lo && n.limit == hi {
        ClearOwn(s, id, pre, i, lo, hi, live, f, st, t0);
        return true;
      }
      ok := ClearForeign(s, level, id, i, lo, hi, live, f, st, t0);
      ToldBut(tb, Tb(), s.lo, gather, pre);
    }

    /** ummu_table_clear_head_node_free_bit. */
    method ClearHeadFreeBit(s: Seg, level: nat, id: nat, pre: Option<(nat, nat)>, i: nat, lo: nat, hi: nat,
                            ghost live: Live, ghost f: nat, ghost st: (nat, nat), ghost t0: Option<Table>)
      returns (ok: bool)
      requires ClearHeadPre(Tb(), live, s, level, id, i, lo, hi, f, st, t0, lvl, headFlag) && blockCnt == |blocks| && fb
      requires (pre.None? <==> id == 0) && (pre.Some? ==> id in up && up[id] == pre.value)
      modifies this
      ensures blockCnt == |blocks|
      ensures ClearPost(old(Tb()), Tb(), id, live, s, Start(old(Tb()), id, i) + hi + 1, f, st, t0, ok)
      ensures Walked(s, level + 1, old(lvl), old(headFlag), lvl, headFlag)
      ensures Pushed(old(gather), gather, Cap(level, Sides(Span(level), lo, hi)))
      ensures Told(old(Tb()), Tb(), s.lo, gather, pre)
      decreases 4 - level, 1
    {
      hide Told, Notice, ClearAt, ClearPost, Start, Span, WalkIn, SplitOk, Cap, Sides, N, Own;
      ghost var tb := Tb();
      ClearValid(tb, live, s, id, i, lo, hi, f, st, t0);
      var n := NodeAt(id, i);
      if n.fBit {
        ok := ClearUnused(s, level, id, pre, i, lo, hi, live, f, st, t0);
        return;
      }
      ClearMatch(tb, live, s, id, i, lo, hi, f, st, t0);
      if n.base == lo && n.limit == hi {
        ClearOwn(s, id, pre, i, lo, hi, live, f, st, t0);
        return true;
      }
      ok := ClearForeign(s, level, id, i, lo, hi, live, f, st, t0);
      ToldBut(tb, Tb(), s.lo, gather, pre);
    }

    /** One round of the loop over a level block. The node is always valid. */
    method ClearEntry(s: Seg, level: nat, id: nat, pre: Option<(nat, nat)>, i: nat, lo: nat, hi: nat,
                      ghost live: Live, ghost f: nat, ghost st: (nat, nat), ghost t0: Option<Table>)
      returns (ok: bool)
      requires ClearEntryPre(Tb(), live, s, level, id, pre, i, lo, hi, f, st, t0, lvl, headFlag) && blockCnt == |blocks|
      modifies this
      ensures blockCnt == |blocks|
      ensures ClearPost(old(Tb()), Tb(), id, live, s, Reach(level, Pfx(old(Tb()), id), lo, hi, i + 1), f, st, t0, ok)
      ensures old(lvl) == level ==> lvl == level
      ensures Walked(s, level, old(lvl), old(headFlag), lvl, headFlag) && (old(lvl) > level ==> lvl > level)
      ensures Pushed(old(gather), gather,
                     Cap(level, SidesAt(level, lo, hi, i)))
      ensures Told(old(Tb()), Tb(), s.lo, gather, pre)
      decreases 4 - level, 2
    {
      hide Told, Notice, ClearAt, ClearPost, Start, Span, BlockSpan, SplitOk, Reach, IndexAt, OffsetAt, ClearState,
           Pfx, Lv,
           WalkIn, Sides, Left, Right, N, AboveClear, Own;
      ghost var tb := Tb();
      ClearEntryAt(tb, live, s, level, id, pre, i, lo, hi, f, st, t0, lvl, headFlag);
      var base, limit := IndexAt(level, lo), IndexAt(level, hi);
      var nodeBase, nodeLimit := NodeBase(level, lo, i), NodeLimit(level, hi, i);
      ClearValid(tb, live, s, id, i, nodeBase, nodeLimit, f, st, t0);
      assert NodeAt(id, i).valid;
      if base < i < limit {
        ClearWhole(tb, live, s, id, i, nodeBase, nodeLimit, f, st, t0);
        ClearOwn(s, id, pre, i, nodeBase, nodeLimit, live, f, st, t0);
        return true;
      }
      ClearEntryHead(tb, live, s, level, id, pre, i, lo, hi, f, st, t0, lvl, headFlag);
      NodeSides(level, lo, hi, i);
      hide ClearEntryPre, ClearHeadPre;
      if lvl == level {
        headFlag := i == base;
      }
      if fb {
        ok := ClearHeadFreeBit(s, level, id, pre, i, nodeBase, nodeLimit, live, f, st, t0);
      } else {
        ok := ClearHead(s, level, id, pre, i, nodeBase, nodeLimit, live, f, st, t0);
      }
    }

    /** ummu_table_clear_node_by_level. */
    method ClearByLevel(s: Seg, level: nat, pre: Option<(nat, nat)>, lo: nat, hi: nat,
                        ghost live: Live, ghost f: nat, ghost st: (nat, nat), ghost t0: Option<Table>)
      returns (ok: bool)
      requires ClearBlockPre(Tb(), live, s, level, pre, lo, hi, f, st, t0, lvl, headFlag) && blockCnt == |blocks|
      modifies this
      ensures blockCnt == |blocks|
      ensures var id := Lead(old(Tb()), pre);
              ClearPost(old(Tb()), Tb(), id, live, s, Pfx(old(Tb()), id) + hi + 1, f, st, t0, ok)
      ensures Walked(s, level, old(lvl), old(headFlag), lvl, headFlag)
      ensures Pushed(old(gather), gather, Cap(level, Sides(BlockSpan(level), lo, hi)))
      ensures Told(old(Tb()), Tb(), s.lo, gather, pre)
      decreases 4 - level, 3
    {
      hide Told, Notice, ClearEntryPre, ClearPost, ClearState, Span, BlockSpan, SplitOk, Reach, IndexAt, OffsetAt, Pfx,
           Left, Right, N, Next, WalkAt, LvlAt, ClearBlockPre, Start, Cleared;
      ghost var tb, g0, v0, h0 := Tb(), gather, lvl, headFlag;
      BlockToClearEntry(tb, live, s, level, pre, lo, hi, f, st, t0, lvl, headFlag);
      var id := LeadOf(pre);
      ghost var p := Pfx(tb, id);
      var base, limit := IndexAt(level, lo), IndexAt(level, hi);
      lvl := LvlAt(lvl, level, lo, hi);
      var i := base;
      ToldSame(tb, s.lo, gather, pre);
      while i <= limit
        invariant base <= i <= limit + 1 && blockCnt == |blocks|
        invariant i <= limit ==>
                    ClearEntryPre(Tb(), live, s, level, id, pre, i, lo, hi, f, st, t0, lvl,
                                  headFlag) && Pfx(Tb(), id) == p
        invariant i > limit ==> ClearPost(tb, Tb(), id, live, s, p + hi + 1, f, st, t0, true)
        invariant Cleared(tb, Tb(), id, s.lo)
        invariant Walked(s, level, v0, h0, lvl, headFlag)
        invariant Told(tb, Tb(), s.lo, gather, pre)
        invariant Pushed(g0, gather,
                         Cap(level, SidesDone(level, lo, hi, i)))
      {
        ghost var t, g, v, h := Tb(), gather, lvl, headFlag;
        ok := ClearEntry(s, level, id, pre, i, lo, hi, live, f, st, t0);
        ToldTrans(tb, t, Tb(), s.lo, g, gather, pre, pre);
        ClearEntryAfter(tb, t, Tb(), live, s, level, id, pre, i, lo, hi, f, st, t0, v, h, ok);
        if !ok {
          return;
        }
        if i < limit {
          ClearEntryStep(t, Tb(), live, s, level, id, pre, i, lo, hi, f, st, t0, v, h, lvl, headFlag);
        }
        i := i + 1;
      }
      ok := true;
    }

    // -------------------------------------------------------------- tokens

    /** ummu_update_token. */
    method UpdateToken(op: TokenOp, id: nat, i: nat) returns (ok: bool)
      requires HasMem(Tb(), id) && i < |NodesOf(Tb(), id)|
      modifies this`blocks
      ensures ok <==> NodeToken(op, N(old(Tb()), id, i)).Some?
      ensures Tb() == if ok then Put(old(Tb()), id, i, NewNode(op, N(old(Tb()), id, i))) else old(Tb())
      ensures |blocks| == old(|blocks|)
    {
      hide HasMem, NodesOf, SetLevel, Put;
      TokenIsWrite(Tb(), op, id, i);
      var n := NodeAt(id, i);
      match op {
        case AddToken(tok) =>
          if n.valid && n.nonce == 1 {
            WriteNode(id, i, n.(tok1 := tok, nonce := MAX_TOKENS));
            return true;
          }
          return false;
        case RemoveToken(tok) =>
          if n.tok0 == tok {
            WriteNode(id, i, n.(tok0 := n.tok1, nonce := 1));
          } else if n.tok1 == tok {
            WriteNode(id, i, n.(tok1 := n.tok0, nonce := 1));
          } else {
            return false;
          }
          return true;
      }
    }

    /** ummu_table_update_node_token, which needs no test for an unused own range. */
    method UpdateNodeToken(op: TokenOp, level: nat, id: nat, i: nat, lo: nat, hi: nat, ghost t0: Table,
                           ghost live: Live, ghost name: nat)
      returns (ok: bool)
      requires TokAt(t0, Tb(), live, name, op, id, i, lo, hi) && Lv(t0, id) == level && blockCnt == |blocks| && !fb
      modifies this`blocks
      ensures ok && TokState(t0, Tb(), name, op, Start(t0, id, i) + hi + 1) && blockCnt == |blocks|
      decreases 4 - level, 0
    {
      hide TokBase, TokState, Start, AboveClear, Span, InSpan, InUse, Own, HasMem, NodesOf, Put, NewNode, NodeToken,
           N, Lv,
           Pfx, TokBlock, Lead;
      TokCases(t0, Tb(), live, name, op, id, i, lo, hi);
      FbIs(t0, Tb(), live, name, op, id, i, lo, hi);
      var n := NodeAt(id, i);
      if n.base == lo && n.limit == hi {
        TokHere(t0, Tb(), live, name, op, id, i, lo, hi);
        ok := UpdateToken(op, id, i);
      } else {
        assert !n.leaf;
        TokDown(t0, Tb(), live, name, op, level, id, i, lo, hi);
        ok := UpdateTokenByLevel(op, level + 1, Some((id, i)), lo, hi, t0, live, name);
      }
    }

    /** ummu_table_update_node_token_free_bit. */
    method UpdateNodeTokenFreeBit(op: TokenOp, level: nat, id: nat, i: nat, lo: nat, hi: nat, ghost t0: Table,
                                  ghost live: Live, ghost name: nat)
      returns (ok: bool)
      requires TokAt(t0, Tb(), live, name, op, id, i, lo, hi) && Lv(t0, id) == level && blockCnt == |blocks| && fb
      modifies this`blocks
      ensures ok && TokState(t0, Tb(), name, op, Start(t0, id, i) + hi + 1) && blockCnt == |blocks|
      decreases 4 - level, 0
    {
      hide TokBase, TokState, Start, AboveClear, Span, InSpan, Own, HasMem, NodesOf, Put, NewNode, NodeToken, N, Lv,
           Pfx,
           TokBlock, Lead;
      TokCases(t0, Tb(), live, name, op, id, i, lo, hi);
      FbIs(t0, Tb(), live, name, op, id, i, lo, hi);
      var n := NodeAt(id, i);
      if n.fBit || !(n.base == lo && n.limit == hi) {
        assert !n.leaf;
        TokDown(t0, Tb(), live, name, op, level, id, i, lo, hi);
        ok := UpdateTokenByLevel(op, level + 1, Some((id, i)), lo, hi, t0, live, name);
      } else {
        TokHere(t0, Tb(), live, name, op, id, i, lo, hi);
        ok := UpdateToken(op, id, i);
      }
    }

    /** ummu_table_update_token_by_level: on a stored segment it meets no error. */
    method UpdateTokenByLevel(op: TokenOp, level: nat, pre: Option<(nat, nat)>, lo: nat, hi: nat, ghost t0: Table,
                              ghost live: Live, ghost name: nat)
      returns (ok: bool)
      requires TokBlock(t0, Tb(), live, name, op, level, pre, lo, hi) && Lead(Tb(), pre) == Lead(t0, pre)
      requires blockCnt == |blocks|
      modifies this`blocks
      ensures ok && TokState(t0, Tb(), name, op, Pfx(t0, Lead(t0, pre)) + hi + 1) && blockCnt == |blocks|
      decreases 4 - level, 1
    {
      hide TokState, TokBase, AboveClear, Span, BlockSpan, Reach, IndexAt, OffsetAt, Pfx, N, Next, TokAt, Lv, Start,
           HasMem,
           NodesOf, Put, NewNode, NodeToken, Own, Lead;
      var id := LeadOf(pre);
      ghost var p := Pfx(t0, id);
      TokFirst(t0, Tb(), live, name, op, level, pre, lo, hi);
      hide TokBlock, TokEntry;
      var base, limit := IndexAt(level, lo), IndexAt(level, hi);
      var i := base;
      while i <= limit
        invariant base <= i <= limit + 1 && blockCnt == |blocks|
        invariant i <= limit ==> TokEntry(t0, Tb(), live, name, op, level, id, i, lo, hi)
        invariant i > limit ==> TokState(t0, Tb(), name, op, p + hi + 1)
      {
        ghost var tb := Tb();
        TokEntryAt(t0, tb, live, name, op, level, id, i, lo, hi);
        TokEntryIs(t0, tb, live, name, op, level, id, i, lo, hi);
        var nodeBase, nodeLimit := NodeBase(level, lo, i), NodeLimit(level, hi, i);
        TokCases(t0, tb, live, name, op, id, i, nodeBase, nodeLimit);
        assert NodeAt(id, i).valid;
        if base < i < limit {
          TokWhole(t0, tb, live, name, op, id, i, nodeBase, nodeLimit);
          TokHere(t0, tb, live, name, op, id, i, nodeBase, nodeLimit);
          ok := UpdateToken(op, id, i);
        } else if fb {
          ok := UpdateNodeTokenFreeBit(op, level, id, i, nodeBase, nodeLimit, t0, live, name);
        } else {
          ok := UpdateNodeToken(op, level, id, i, nodeBase, nodeLimit, t0, live, name);
        }
        if !ok {
          return;
        }
        TokNext(t0, tb, Tb(), live, name, op, level, id, i, lo, hi);
        i := i + 1;
      }
      ok := true;
    }

    // -------------------------------------------------------------- ummu_table_op

    /** UMMU_GRANT: store the segment; if that fails part way, clear what was stored. Then all is as
        before, although the clear itself ends in an error. At most 8 invalidations are queued. */
    method TableGrant(s: Seg, mem: bool, ghost live: Live) returns (ok: bool)
      requires Represents(live) && Fits(live, s.lo, s)
      modifies this
      ensures ok ==> Represents(live[s.lo := s]) && Ext(old(Tb()), Tb(), s.lo)
      ensures !ok ==> Represents(live) && Restored(old(Tb()), Tb())
      ensures Base(old(Tb()), s.lo)
      ensures mem && expan && |old(bitmap)| + 6 < MAX_IDS ==> ok
      ensures ok ==> |bitmap| <= |old(bitmap)| + 6
      ensures IndexAt(0, s.lo) == IndexAt(0, s.hi) ==>
                Alone(old(Tb()), Tb(), s, 0, IndexAt(0, s.lo), OffsetAt(0, s.lo), OffsetAt(0, s.hi), ok)
      ensures Pushed(old(gather), gather, 8) && Told(old(Tb()), Tb(), s.lo, gather, None)
    {
      hide IndexAt, OffsetAt, Told, Inv, Ext, Restored, BlockPre, ClearBlockPre, Base, ClearPost, Pfx, FillState,
           Fits, StuckAt, Lead,
           BlockSpan, Places;
      ghost var tb := Tb();
      GrantStart(tb, live, s);
      lvl := 3;
      ghost var stop, st;
      ok, stop, st := FillByLevel(s, 0, None, s.lo, s.hi, mem, live, None, tb);
      if ok {
        GrantDone(Tb(), live, s, tb);
      } else {
        if mem && expan {
          AllInUse(bitmap);
        }
        RollbackStart(Tb(), live, s, tb, stop, st, lvl, headFlag);
        ghost var t, g := Tb(), gather;
        var cleared := ClearByLevel(s, 0, None, s.lo, s.hi, live, stop, st, Some(tb));
        ToldTrans(tb, t, Tb(), s.lo, g, gather, None, None);
        RollbackDone(t, Tb(), live, s, tb, stop, st, cleared);
      }
    }

    /** UMMU_UNGRANT of a live segment: never fails, and undoes the grant of it. */
    method TableUngrant(s: Seg, ghost live: Live, ghost t0: Option<Table>) returns (ok: bool)
      requires Represents(live) && s.lo in live && live[s.lo] == s
      requires t0.Some? ==> Base(t0.value, s.lo) && Ext(t0.value, Tb(), s.lo)
      modifies this
      ensures ok && Represents(live - {s.lo})
      ensures t0.Some? ==> Restored(t0.value, Tb())
      ensures Pushed(old(gather), gather, 6) && Told(old(Tb()), Tb(), s.lo, gather, None)
    {
      hide Told, Inv, Ext, Restored, ClearBlockPre, Base, ClearPost, Pfx, Lead, BlockSpan;
      ghost var tb := Tb();
      lvl := 3;
      UngrantStart(tb, live, s, t0, (0, 0), lvl, headFlag);
      ok := ClearByLevel(s, 0, None, s.lo, s.hi, live - {s.lo}, s.hi + 1, (0, 0), t0);
      UngrantDone(tb, Tb(), live - {s.lo}, s, t0, (0, 0), ok);
    }

    /** UMMU_ADD_TOKEN and UMMU_REMOVE_TOKEN. */
    method TableToken(s: Seg, op: TokenOp, ghost live: Live) returns (ok: bool)
      requires Represents(live) && s.lo in live && live[s.lo] == s && TokenFits(op, s)
      modifies this`blocks
      ensures ok && Represents(live[s.lo := SegToken(op, s)]) && Told(old(Tb()), Tb(), s.lo, gather, None)
    {
      hide Told, Inv, TokBlock, Pfx, TokState, Lead;
      ghost var tb := Tb();
      TokenStart(tb, live, s, op);
      ok := UpdateTokenByLevel(op, 0, None, s.lo, s.hi, tb, live, s.lo);
      TokTold(tb, Tb(), s.lo, op, s.hi + 1, gather);
      TokDone(tb, Tb(), live, s.lo, op);
    }
  }
}
