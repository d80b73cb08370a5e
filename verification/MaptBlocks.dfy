/** Allocating and freeing level blocks. */
module MaptBlocks {
  import opened Basics
  import opened MaptModel
  import opened MaptInv
  import opened MaptUpdates

  function Zeros(): (s: seq<Node>)
    ensures |s| == ENTRIES && forall i :: 0 <= i < ENTRIES ==> s[i] == ZERO
  {
    seq(ENTRIES, _ => ZERO)
  }

  /** A node made to lead to level block `c`. */
  function Attach(n: Node, id: nat, c: nat): Node {
    n.(leaf := false, nextBlock := BlkOf(id) != BlkOf(c), nextIndex := BlkOf(c), nextOffset := ENTRIES * SubOf(c))
  }

  function Detach(n: Node): Node {
    n.(leaf := true, nextBlock := false, nextIndex := 0, nextOffset := 0)
  }

  lemma AttachNext(n: Node, id: nat, c: nat)
    ensures Next(Attach(n, id, c)) == c
  {}

  // ---------------------------------------------------------------- the bitmap and the MAPT blocks

  /** A MAPT block as allocated: zeroed. */
  function FreshBlock(): Block {
    Block(0, [0, 0, 0, 0], [Zeros(), Zeros(), Zeros(), Zeros()])
  }

  /** Mark level block `c` used, allocating its MAPT block if that is missing. */
  function AddLevel(tb: Table, c: nat, place: Pos, above: (nat, nat)): Table {
    var b := BlkOf(c);
    var blk := if b in tb.blocks then tb.blocks[b] else FreshBlock();
    tb.(bitmap := tb.bitmap + {c}, blocks := tb.blocks[b := blk.(levelCnt := blk.levelCnt + 1)],
        pos := tb.pos[c := place], up := tb.up[c := above])
  }

  lemma AddLevelGet(tb: Table, c: nat, place: Pos, above: (nat, nat))
    requires Accounts(tb) && c !in tb.bitmap
    ensures var tb' := AddLevel(tb, c, place, above);
            && (forall jd :: BlkOf(jd) in tb'.blocks <==> BlkOf(jd) in tb.blocks || BlkOf(jd) == BlkOf(c))
            && (forall jd :: BlkOf(jd) in tb'.blocks ==> HasMem(tb', jd))
            && (forall jd :: BlkOf(jd) in tb.blocks ==>
                  NodesOf(tb', jd) == NodesOf(tb, jd) && Count(tb', jd) == Count(tb, jd))
            && (forall jd :: BlkOf(jd) !in tb.blocks && BlkOf(jd) == BlkOf(c) ==>
                  NodesOf(tb', jd) == Zeros() && Count(tb', jd) == 0)
  {
    hide BlkOf, SubOf, Bits, LevelOk, Zeros;
  }

  /** Mark level block `id` unused; the MAPT block goes with its last level block. */
  function DropLevel(tb: Table, id: nat): Table {
    var b := BlkOf(id);
    if b in tb.blocks && tb.blocks[b].levelCnt > 0 then
      var cnt := tb.blocks[b].levelCnt - 1;
      tb.(bitmap := tb.bitmap - {id},
          blocks := if cnt == 0 then tb.blocks - {b} else tb.blocks[b := tb.blocks[b].(levelCnt := cnt)])
    else tb
  }

  lemma DropLevelGet(tb: Table, id: nat)
    requires Accounts(tb) && BlkOf(id) in tb.blocks && tb.blocks[BlkOf(id)].levelCnt > 0
    ensures var tb' := DropLevel(tb, id);
            && (forall jd :: BlkOf(jd) in tb'.blocks ==> BlkOf(jd) in tb.blocks && HasMem(tb', jd))
            && (forall jd :: BlkOf(jd) in tb.blocks && BlkOf(jd) !in tb'.blocks ==>
                  BlkOf(jd) == BlkOf(id) && tb.blocks[BlkOf(id)].levelCnt == 1)
            && (forall jd :: BlkOf(jd) in tb'.blocks ==>
                  NodesOf(tb', jd) == NodesOf(tb, jd) && Count(tb', jd) == Count(tb, jd))
  {
    hide BlkOf, SubOf, Bits, LevelOk;
  }

  lemma BitsAdd(bitmap: set<nat>, c: nat, b: nat)
    requires c !in bitmap
    ensures Bits(bitmap + {c}, b) == Bits(bitmap, b) + (if b == BlkOf(c) then 1 else 0)
  {}

  lemma BitsRemove(bitmap: set<nat>, c: nat, b: nat)
    requires c in bitmap
    ensures Bits(bitmap, b) == Bits(bitmap - {c}, b) + (if b == BlkOf(c) then 1 else 0)
  {}

  lemma BitsPositive(bitmap: set<nat>, c: nat, d: nat)
    requires c in bitmap && d in bitmap && c != d && BlkOf(c) == BlkOf(d)
    ensures Bits(bitmap, BlkOf(c)) >= 2
  {}

  lemma BitsZero(bitmap: set<nat>, b: nat)
    requires forall jd :: jd in bitmap ==> BlkOf(jd) != b
    ensures Bits(bitmap, b) == 0
  {
    assert BlkOf(PER_BLOCK * b) == b && BlkOf(PER_BLOCK * b + 1) == b
        && BlkOf(PER_BLOCK * b + 2) == b && BlkOf(PER_BLOCK * b + 3) == b;
  }

  lemma AddLevelAccounts(tb: Table, c: nat, place: Pos, above: (nat, nat))
    requires Shape(tb) && Accounts(tb) && c !in tb.bitmap && c < MAX_IDS
    ensures Accounts(AddLevel(tb, c, place, above))
  {
    hide BlkOf, SubOf, Bits, CountValid, BlockSpan, N;
    var tb' := AddLevel(tb, c, place, above);
    AddLevelGet(tb, c, place, above);
    forall b | b in tb'.blocks ensures BlockOk(tb', b, tb'.blocks[b]) {
      BitsAdd(tb.bitmap, c, b);
      if b !in tb.blocks {
        BitsZero(tb.bitmap, b);
      }
    }
    forall jd | BlkOf(jd) in tb'.blocks ensures LevelOk(tb', jd) {
      AddLevelOk(tb, c, place, above, jd);
    }
    hide LevelOk, BlockOk;
  }

  lemma AddLevelOk(tb: Table, c: nat, place: Pos, above: (nat, nat), jd: nat)
    requires Shape(tb) && Accounts(tb) && c !in tb.bitmap && BlkOf(jd) in AddLevel(tb, c, place, above).blocks
    ensures LevelOk(AddLevel(tb, c, place, above), jd)
  {
    hide BlkOf, SubOf, Bits, CountValid, BlockSpan, BlockOk;
    var tb' := AddLevel(tb, c, place, above);
    AddLevelGet(tb, c, place, above);
    if BlkOf(jd) in tb.blocks {
      assert LevelOk(tb, jd);
    }
    hide HasMem, Count;
    MemKeys(tb);
    if jd !in tb.bitmap {
      forall i ensures N(tb', jd, i) == ZERO {
        if BlkOf(jd) in tb.blocks {
          assert N(tb, jd, i) == ZERO;
        }
      }
      if jd == c {
        assert forall i :: 0 <= i < |NodesOf(tb', c)| ==> NodesOf(tb', c)[i] == N(tb', c, i);
        CountNone(NodesOf(tb', c));
      }
    }
  }

  ghost predicate Droppable(tb: Table, id: nat) {
    && Shape(tb) && Accounts(tb) && id in tb.bitmap && id != 0 && BlkOf(id) in tb.blocks
    && forall i :: N(tb, id, i) == ZERO
  }

  lemma DropLevelCnt(tb: Table, id: nat)
    requires Droppable(tb, id)
    ensures tb.blocks[BlkOf(id)].levelCnt > 0
    ensures BlkOf(id) == 0 ==> tb.blocks[BlkOf(id)].levelCnt >= 2
    ensures forall d :: d in tb.bitmap && d != id && BlkOf(d) == BlkOf(id) ==> tb.blocks[BlkOf(id)].levelCnt >= 2
  {
    hide BlkOf, SubOf, Bits, CountValid, BlockSpan, LevelOk, N;
    assert BlockOk(tb, BlkOf(id), tb.blocks[BlkOf(id)]);
    BitsRemove(tb.bitmap, id, BlkOf(id));
    BlkZero();
    forall d | d in tb.bitmap && d != id && BlkOf(d) == BlkOf(id) ensures tb.blocks[BlkOf(id)].levelCnt >= 2 {
      BitsPositive(tb.bitmap, id, d);
    }
  }

  lemma DropLevelAccounts(tb: Table, id: nat)
    requires Droppable(tb, id)
    ensures Accounts(DropLevel(tb, id))
  {
    hide BlkOf, SubOf, Bits, CountValid, BlockSpan;
    DropLevelCnt(tb, id);
    var tb' := DropLevel(tb, id);
    DropLevelGet(tb, id);
    forall b | b in tb'.blocks ensures BlockOk(tb', b, tb'.blocks[b]) {
      hide N, LevelOk;
      BitsRemove(tb.bitmap, id, b);
    }
    forall jd | BlkOf(jd) in tb'.blocks ensures LevelOk(tb', jd) {
      DropLevelOk(tb, id, jd);
    }
    hide LevelOk, BlockOk, N, HasMem, NodesOf, Count, Shape;
    BlkZero();
  }

  lemma DropLevelOk(tb: Table, id: nat, jd: nat)
    requires Droppable(tb, id) && BlkOf(jd) in DropLevel(tb, id).blocks
    ensures LevelOk(DropLevel(tb, id), jd)
  {
    hide BlkOf, SubOf, Bits, CountValid, BlockSpan, BlockOk;
    DropLevelCnt(tb, id);
    var tb' := DropLevel(tb, id);
    DropLevelGet(tb, id);
    assert LevelOk(tb, jd);
    assert tb'.bitmap == tb.bitmap - {id};
    hide HasMem, Count, DropLevel, Shape;
    assert forall i :: N(tb', jd, i) == N(tb, jd, i);
    if jd == id {
      assert forall i :: 0 <= i < |NodesOf(tb, id)| ==> NodesOf(tb, id)[i] == N(tb, id, i);
      CountNone(NodesOf(tb, id));
    }
  }

  lemma BlkZero()
    ensures BlkOf(0) == 0
  {}

  // ---------------------------------------------------------------- a new child

  /** ummu_alloc_level_block on number `c`, with the node made to lead to it. */
  function AddChild(tb: Table, id: nat, i: nat, c: nat): Table {
    AddLevel(Put(tb, id, i, Attach(N(tb, id, i), id, c)), c, Pos(Lv(tb, id) + 1, Start(tb, id, i)), (id, i))
  }

  ghost predicate CanAdd(tb: Table, id: nat, i: nat, c: nat) {
    && Shape(tb) && Links(tb) && Accounts(tb) && IsNode(tb, id, i) && Lv(tb, id) < 3
    && N(tb, id, i).valid && N(tb, id, i).leaf && c !in tb.bitmap && c < MAX_IDS
  }

  lemma AddGet(tb: Table, id: nat, i: nat, c: nat)
    requires CanAdd(tb, id, i, c)
    ensures var tb' := AddChild(tb, id, i, c);
            && tb'.fb == tb.fb && tb'.bitmap == tb.bitmap + {c}
            && tb'.pos == tb.pos[c := Pos(Lv(tb, id) + 1, Start(tb, id, i))] && tb'.up == tb.up[c := (id, i)]
            && N(tb', id, i) == Attach(N(tb, id, i), id, c)
            && (forall j :: N(tb', c, j) == ZERO)
            && (forall jd: nat, j: nat :: jd in tb.bitmap && !(jd == id && j == i) ==> N(tb', jd, j) == N(tb, jd, j))
            && (forall jd :: jd in tb'.bitmap ==> HasMem(tb', jd) && |NodesOf(tb', jd)| == ENTRIES)
            && (forall jd :: jd in tb.bitmap && jd != id ==> NodesOf(tb', jd) == NodesOf(tb, jd))
            && NodesOf(tb', id) == NodesOf(tb, id)[i := Attach(N(tb, id, i), id, c)]
  {
    hide BlkOf, SubOf, Bits, CountValid, BlockSpan, EntryBase, Links, Attach;
    var tb1 := Put(tb, id, i, Attach(N(tb, id, i), id, c));
    PutAccounts(tb, id, i, Attach(N(tb, id, i), id, c));
    PutShape(tb, id, i, Attach(N(tb, id, i), id, c));
    PutGet(tb, id, i, Attach(N(tb, id, i), id, c));
    hide Put;
    AddLevelNodes(tb1, c, Pos(Lv(tb, id) + 1, Start(tb, id, i)), (id, i));
    hide AddLevel, HasMem, NodesOf, Accounts;
  }

  lemma AddLevelNodes(tb: Table, c: nat, place: Pos, above: (nat, nat))
    requires Shape(tb) && Accounts(tb) && c !in tb.bitmap
    ensures var tb' := AddLevel(tb, c, place, above);
            && tb'.fb == tb.fb && tb'.bitmap == tb.bitmap + {c} && tb'.pos == tb.pos[c := place]
            && tb'.up == tb.up[c := above]
            && (forall j :: N(tb', c, j) == ZERO)
            && (forall jd :: jd in tb'.bitmap ==> HasMem(tb', jd) && |NodesOf(tb', jd)| == ENTRIES)
            && (forall jd :: jd in tb.bitmap ==> NodesOf(tb', jd) == NodesOf(tb, jd))
  {
    hide BlkOf, SubOf, Bits, CountValid, BlockSpan, BlockOk;
    AddLevelGet(tb, c, place, above);
    MemKeys(tb);
    if BlkOf(c) in tb.blocks {
      assert LevelOk(tb, c);
    }
    var tb' := AddLevel(tb, c, place, above);
    hide HasMem, LevelOk, Count;
    assert forall j :: N(tb', c, j) == N(tb, c, j) || N(tb', c, j) == ZERO;
    hide NodesOf;
  }

  lemma MemKeys(tb: Table)
    requires Shape(tb)
    ensures forall jd :: jd in tb.bitmap ==> BlkOf(jd) in tb.blocks
  {
    hide BlkOf, SubOf, BlockSpan, NodesOf;
  }

  lemma AddShape(tb: Table, id: nat, i: nat, c: nat)
    requires CanAdd(tb, id, i, c)
    ensures Shape(AddChild(tb, id, i, c))
  {
    hide EntryBase, Links, BlockSpan, Accounts, HasMem, NodesOf;
    var l, p := Lv(tb, id), Pfx(tb, id);
    EntryFits(l, p, i);
    EntryAligned(l, p, i);
    NextSpan(l);
    AddGet(tb, id, i, c);
    hide AddChild, N;
  }

  /** No other level block has the place of the new one. */
  lemma NewPlace(tb: Table, id: nat, i: nat, c: nat, d: nat)
    requires CanAdd(tb, id, i, c) && d in tb.bitmap
    ensures !(Lv(tb, d) == Lv(tb, id) + 1 && Pfx(tb, d) == Start(tb, id, i))
  {
    hide EntryBase, BlockSpan, Accounts, BlkOf, SubOf, HasMem, NodesOf, Next;
    if Lv(tb, d) == Lv(tb, id) + 1 && Pfx(tb, d) == Start(tb, id, i) {
      var (p, j) := tb.up[d];
      assert LeadsTo(tb, p, j, d);
      var l := Lv(tb, id);
      EntryFits(l, Pfx(tb, id), i);
      EntryFits(l, Pfx(tb, p), j);
      SameCell(l, Pfx(tb, id), Pfx(tb, p), Start(tb, id, i));
      if j < i {
        EntryOrder(l, Pfx(tb, id), j, i);
      } else if i < j {
        EntryOrder(l, Pfx(tb, id), i, j);
      }
    }
  }

  /** A link stays when the node it starts from and the block it leads to keep what matters. */
  lemma LeadsKept(tb: Table, tb': Table, id: nat, i: nat, c: nat)
    requires LeadsTo(tb, id, i, c) && id in tb.pos && c in tb.pos
    requires c in tb'.bitmap && c in tb'.up && tb'.up[c] == tb.up[c]
    requires id in tb'.pos && tb'.pos[id] == tb.pos[id] && c in tb'.pos && tb'.pos[c] == tb.pos[c]
    requires N(tb', id, i) == N(tb, id, i)
    ensures LeadsTo(tb', id, i, c)
  {
    hide EntryBase, N, BlkOf, SubOf, Next;
  }

  /** The links that were there stay, and the new one is there. */
  lemma AddLink(tb: Table, id: nat, i: nat, c: nat, jd: nat, j: nat, d: nat)
    requires CanAdd(tb, id, i, c)
    requires (d == c && jd == id && j == i) || (IsNode(tb, jd, j) && LeadsTo(tb, jd, j, d))
    ensures LeadsTo(AddChild(tb, id, i, c), jd, j, d)
  {
    hide EntryBase, BlockSpan, Next, HasMem, NodesOf, BlkOf, SubOf, LeadsOk, UpsOk, FormsOk, PlacesDiffer, Accounts, N;
    AddGet(tb, id, i, c);
    hide AddChild;
    if d == c && jd == id && j == i {
      AttachNext(N(tb, id, i), id, c);
    } else {
      LeadsValid(tb, jd, j, d);
      LeadsKept(tb, AddChild(tb, id, i, c), jd, j, d);
    }
  }

  lemma AddLeads(tb: Table, id: nat, i: nat, c: nat, jd: nat, j: nat)
    requires CanAdd(tb, id, i, c) && IsNode(AddChild(tb, id, i, c), jd, j) && Leading(N(AddChild(tb, id, i, c), jd, j))
    ensures LeadsTo(AddChild(tb, id, i, c), jd, j, Next(N(AddChild(tb, id, i, c), jd, j)))
  {
    hide EntryBase, BlockSpan, Next, HasMem, NodesOf, BlkOf, SubOf, UpsOk, FormsOk, PlacesDiffer, Accounts, N,
         LeadsTo, Attach;
    AddGet(tb, id, i, c);
    hide AddChild;
    AttachNext(N(tb, id, i), id, c);
    if jd == id && j == i {
      AddLink(tb, id, i, c, id, i, c);
    } else {
      AddLink(tb, id, i, c, jd, j, Next(N(tb, jd, j)));
    }
  }

  lemma AddUp(tb: Table, id: nat, i: nat, c: nat, d: nat)
    requires CanAdd(tb, id, i, c) && d in AddChild(tb, id, i, c).bitmap && d != 0
    ensures var tb' := AddChild(tb, id, i, c);
            d in tb'.up && IsNode(tb', tb'.up[d].0, tb'.up[d].1) && LeadsTo(tb', tb'.up[d].0, tb'.up[d].1, d)
  {
    hide EntryBase, BlockSpan, Next, HasMem, NodesOf, BlkOf, SubOf, LeadsOk, FormsOk, PlacesDiffer, Accounts, N,
         LeadsTo, Attach;
    AddGet(tb, id, i, c);
    hide AddChild;
    if d == c {
      AddLink(tb, id, i, c, id, i, c);
    } else {
      AddLink(tb, id, i, c, tb.up[d].0, tb.up[d].1, d);
    }
  }

  lemma AddForms(tb: Table, id: nat, i: nat, c: nat)
    requires CanAdd(tb, id, i, c)
    ensures FormsOk(AddChild(tb, id, i, c))
  {
    hide EntryBase, BlockSpan, Next, HasMem, NodesOf, BlkOf, SubOf, LeadsTo, LeadsOk, UpsOk, Accounts, N;
    AddGet(tb, id, i, c);
    hide AddChild;
  }

  lemma AddLinks(tb: Table, id: nat, i: nat, c: nat)
    requires CanAdd(tb, id, i, c)
    ensures Links(AddChild(tb, id, i, c))
  {
    hide Next, LeadsTo, N, AddChild, CanAdd;
    AddForms(tb, id, i, c);
    AddPlaces(tb, id, i, c);
    forall jd: nat, j: nat | IsNode(AddChild(tb, id, i, c), jd, j) && Leading(N(AddChild(tb, id, i, c), jd, j))
      ensures LeadsTo(AddChild(tb, id, i, c), jd, j, Next(N(AddChild(tb, id, i, c), jd, j)))
    {
      AddLeads(tb, id, i, c, jd, j);
    }
    forall d | d in AddChild(tb, id, i, c).bitmap && d != 0
      ensures var tb' := AddChild(tb, id, i, c);
              d in tb'.up && IsNode(tb', tb'.up[d].0, tb'.up[d].1) && LeadsTo(tb', tb'.up[d].0, tb'.up[d].1, d)
    {
      AddUp(tb, id, i, c, d);
    }
    hide FormsOk, PlacesDiffer;
  }

  lemma AddPlaces(tb: Table, id: nat, i: nat, c: nat)
    requires CanAdd(tb, id, i, c)
    ensures PlacesDiffer(AddChild(tb, id, i, c))
  {
    hide EntryBase, BlockSpan, Next, HasMem, NodesOf, BlkOf, SubOf, LeadsTo, LeadsOk, UpsOk, FormsOk, Accounts, N;
    AddGet(tb, id, i, c);
    hide AddChild, Attach;
    forall d | d in tb.bitmap ensures !(Lv(tb, d) == Lv(tb, id) + 1 && Pfx(tb, d) == Start(tb, id, i)) {
      NewPlace(tb, id, i, c, d);
    }
    hide Start;
  }

  lemma AddStructure(tb: Table, id: nat, i: nat, c: nat)
    requires Structure(tb, None, None) && CanAdd(tb, id, i, c)
    ensures Structure(AddChild(tb, id, i, c), None, Some(c))
  {
    hide EntryBase, BlockSpan, Next, CountValid, Bits, Links, Accounts, Shape, InUse, HasMem, NodesOf, BlkOf, SubOf;
    AddShape(tb, id, i, c);
    AddLinks(tb, id, i, c);
    var n := Attach(N(tb, id, i), id, c);
    PutShape(tb, id, i, n);
    PutAccounts(tb, id, i, n);
    PutGet(tb, id, i, n);
    AddLevelAccounts(Put(tb, id, i, n), c, Pos(Lv(tb, id) + 1, Start(tb, id, i)), (id, i));
    PutNonEmpty(tb, id, i, n, None);
    AddGet(tb, id, i, c);
    hide AddChild, N, Put;
  }

  // ---------------------------------------------------------------- removing an emptied child

  /** ummu_free_level_block on an emptied level block, with the node above it reset. */
  function DropBlock(tb: Table, id: nat): Table {
    var (p, j) := if id in tb.up then tb.up[id] else (0, 0);
    DropLevel(Put(tb, p, j, Detach(N(tb, p, j))), id)
  }

  ghost predicate CanDrop(tb: Table, id: nat) {
    && Shape(tb) && Links(tb) && Accounts(tb) && id in tb.bitmap && id != 0 && id in tb.up
    && forall i :: N(tb, id, i) == ZERO
  }

  lemma DropAbove(tb: Table, id: nat)
    requires CanDrop(tb, id)
    ensures var (p, j) := tb.up[id];
            && IsNode(tb, p, j) && p != id && LeadsTo(tb, p, j, id) && Leading(N(tb, p, j))
            && Droppable(Put(tb, p, j, Detach(N(tb, p, j))), id)
  {
    hide BlkOf, SubOf, Bits, CountValid, EntryBase, BlockSpan, Next, HasMem, NodesOf;
    var (p, j) := tb.up[id];
    assert LeadsTo(tb, p, j, id);
    hide Links;
    PutGet(tb, p, j, Detach(N(tb, p, j)));
    PutShape(tb, p, j, Detach(N(tb, p, j)));
    PutAccounts(tb, p, j, Detach(N(tb, p, j)));
    MemKeys(tb);
    hide Put, N, Shape, Accounts;
  }

  lemma DropGet(tb: Table, id: nat)
    requires CanDrop(tb, id)
    ensures var tb' := DropBlock(tb, id); var (p, j) := tb.up[id];
            && tb'.fb == tb.fb && tb'.bitmap == tb.bitmap - {id} && tb'.pos == tb.pos && tb'.up == tb.up
            && N(tb', p, j) == Detach(N(tb, p, j))
            && (forall jd: nat, k: nat :: jd in tb'.bitmap && !(jd == p && k == j) ==> N(tb', jd, k) == N(tb, jd, k))
            && (forall jd :: jd in tb'.bitmap ==> HasMem(tb', jd) && |NodesOf(tb', jd)| == ENTRIES)
            && (forall jd :: jd in tb'.bitmap && jd != p ==> NodesOf(tb', jd) == NodesOf(tb, jd))
            && NodesOf(tb', p) == NodesOf(tb, p)[j := Detach(N(tb, p, j))]
  {
    hide BlkOf, SubOf, Bits, CountValid, EntryBase, BlockSpan, Next, Links;
    var (p, j) := tb.up[id];
    DropAbove(tb, id);
    hide LeadsTo, Accounts;
    PutGet(tb, p, j, Detach(N(tb, p, j)));
    var tb1 := Put(tb, p, j, Detach(N(tb, p, j)));
    hide Put;
    DropLevelNodes(tb1, id);
    hide DropLevel, HasMem, NodesOf;
  }

  lemma DropLevelNodes(tb: Table, id: nat)
    requires Droppable(tb, id)
    ensures var tb' := DropLevel(tb, id);
            && tb'.fb == tb.fb && tb'.bitmap == tb.bitmap - {id} && tb'.pos == tb.pos && tb'.up == tb.up
            && (forall jd :: jd in tb'.bitmap ==> HasMem(tb', jd) && |NodesOf(tb', jd)| == ENTRIES)
            && (forall jd :: jd in tb'.bitmap ==> NodesOf(tb', jd) == NodesOf(tb, jd))
  {
    hide BlkOf, SubOf, Bits, CountValid, BlockSpan, BlockOk, LevelOk, N;
    DropLevelCnt(tb, id);
    DropLevelGet(tb, id);
    MemKeys(tb);
    hide HasMem, NodesOf;
  }

  lemma DropShape(tb: Table, id: nat)
    requires CanDrop(tb, id)
    ensures Shape(DropBlock(tb, id))
  {
    hide BlockSpan, Links, Accounts, EntryBase, HasMem, NodesOf;
    DropGet(tb, id);
    hide DropBlock, N;
  }

  /** The links that do not concern the dropped block stay. */
  lemma DropLink(tb: Table, id: nat, jd: nat, k: nat, d: nat)
    requires CanDrop(tb, id) && IsNode(tb, jd, k) && LeadsTo(tb, jd, k, d)
    requires d != id
    ensures LeadsTo(DropBlock(tb, id), jd, k, d) && jd != id
  {
    hide BlockSpan, EntryBase, Next, HasMem, NodesOf, BlkOf, SubOf, Accounts, LeadsOk, UpsOk, FormsOk, PlacesDiffer;
    DropGet(tb, id);
    DropAbove(tb, id);
    hide DropBlock;
    LeadsValid(tb, jd, k, d);
    LeadsValid(tb, tb.up[id].0, tb.up[id].1, id);
    assert !Leading(N(tb, id, k));
    hide N, Put;
    LeadsKept(tb, DropBlock(tb, id), jd, k, d);
  }

  lemma DropLeads(tb: Table, id: nat, jd: nat, k: nat)
    requires CanDrop(tb, id) && IsNode(DropBlock(tb, id), jd, k) && Leading(N(DropBlock(tb, id), jd, k))
    ensures LeadsTo(DropBlock(tb, id), jd, k, Next(N(DropBlock(tb, id), jd, k)))
  {
    hide BlockSpan, EntryBase, Next, HasMem, NodesOf, BlkOf, SubOf, Accounts, UpsOk, FormsOk, PlacesDiffer, N;
    DropGet(tb, id);
    var d := Next(N(tb, jd, k));
    assert LeadsTo(tb, jd, k, d);
    hide LeadsOk;
    DropLink(tb, id, jd, k, d);
  }

  lemma DropForms(tb: Table, id: nat)
    requires CanDrop(tb, id)
    ensures FormsOk(DropBlock(tb, id)) && PlacesDiffer(DropBlock(tb, id))
  {
    hide BlockSpan, EntryBase, Next, HasMem, NodesOf, BlkOf, SubOf, LeadsTo, LeadsOk, UpsOk, Accounts;
    DropGet(tb, id);
    DropAbove(tb, id);
    hide DropBlock, N, Put, Shape, Droppable;
  }

  lemma DropUp(tb: Table, id: nat, d: nat)
    requires CanDrop(tb, id) && d in DropBlock(tb, id).bitmap && d != 0
    ensures var tb' := DropBlock(tb, id);
            d in tb'.up && IsNode(tb', tb'.up[d].0, tb'.up[d].1) && LeadsTo(tb', tb'.up[d].0, tb'.up[d].1, d)
  {
    hide BlockSpan, EntryBase, Next, HasMem, NodesOf, BlkOf, SubOf, LeadsTo, LeadsOk, FormsOk, PlacesDiffer, Accounts,
         N;
    DropGet(tb, id);
    hide DropBlock;
    DropLink(tb, id, tb.up[d].0, tb.up[d].1, d);
  }

  lemma DropLinks(tb: Table, id: nat)
    requires CanDrop(tb, id)
    ensures Links(DropBlock(tb, id))
  {
    hide Next, LeadsTo, N, DropBlock, CanDrop;
    DropForms(tb, id);
    forall jd: nat, k: nat | IsNode(DropBlock(tb, id), jd, k) && Leading(N(DropBlock(tb, id), jd, k))
      ensures LeadsTo(DropBlock(tb, id), jd, k, Next(N(DropBlock(tb, id), jd, k)))
    {
      DropLeads(tb, id, jd, k);
    }
    forall d | d in DropBlock(tb, id).bitmap && d != 0
      ensures var tb' := DropBlock(tb, id);
              d in tb'.up && IsNode(tb', tb'.up[d].0, tb'.up[d].1) && LeadsTo(tb', tb'.up[d].0, tb'.up[d].1, d)
    {
      DropUp(tb, id, d);
    }
    hide FormsOk, PlacesDiffer;
  }

  lemma DropStructure(tb: Table, id: nat)
    requires Structure(tb, None, Some(id)) && CanDrop(tb, id)
    ensures Structure(DropBlock(tb, id), Some(tb.up[id]), None)
  {
    hide EntryBase, BlockSpan, Next, CountValid, Bits, Links, Accounts, Shape, InUse, HasMem, NodesOf, BlkOf, SubOf;
    DropShape(tb, id);
    DropLinks(tb, id);
    var (p, j) := tb.up[id];
    DropAbove(tb, id);
    DropLevelAccounts(Put(tb, p, j, Detach(N(tb, p, j))), id);
    DropNonEmpty(tb, id);
    DropGet(tb, id);
    hide DropBlock, N, Put, LeadsTo;
  }

  lemma DropNonEmpty(tb: Table, id: nat)
    requires CanDrop(tb, id) && NonEmpty(tb, Some(id))
    ensures NonEmpty(DropBlock(tb, id), None)
  {
    hide EntryBase, BlockSpan, Next, CountValid, Bits, Links, Accounts, HasMem, BlkOf, SubOf;
    DropGet(tb, id);
    DropAbove(tb, id);
    var (p, j) := tb.up[id];
    CountUpdate(NodesOf(tb, p), j, Detach(N(tb, p, j)));
    hide DropBlock, LeadsTo;
  }
}
