/** State and invariant of the permission table. */
module MaptInv {
  import opened Basics
  import opened MaptModel

  /** struct ummu_mapt_table_node. `leaf` is type == 1 (no next level). `seg` is history: the base of
      the segment whose piece the own range is. */
  datatype Node = Node(
    valid: bool, leaf: bool, nextBlock: bool, eBit: nat, perm: nat, fBit: bool,
    nextIndex: nat, nextOffset: nat, base: nat, limit: nat,
    check: bool, nonce: nat, tok0: nat, tok1: nat, seg: nat)

  const ZERO: Node := Node(false, false, false, 0, 0, false, 0, 0, 0, 0, false, 0, 0, 0, 0)

  /** One allocated MAPT block: how many of its level blocks are in use, the number of valid nodes of
      each, and their memory. */
  datatype Block = Block(levelCnt: nat, entryCnt: seq<nat>, nodes: seq<seq<Node>>)

  /** Where a level block sits: its level and the first address it spans. */
  datatype Pos = Pos(level: nat, pfx: nat)

  /** A value of the whole table. `pos` and `up` (the node that leads to a level block) are history. */
  datatype Table = Table(
    fb: bool,                      // removed own ranges are marked by the free bit
    bitmap: set<nat>,              // level_block_bitmap
    blocks: map<nat, Block>,       // xarray of MAPT blocks
    pos: map<nat, Pos>,
    up: map<nat, (nat, nat)>)

  /** A granted segment `[lo, hi]` with its attributes and tokens. */
  datatype Seg = Seg(lo: nat, hi: nat, perm: nat, eBit: nat, check: bool, count: nat, tok0: nat, tok1: nat)

  type Live = map<nat, Seg>

  // ---------------------------------------------------------------- access

  predicate IsNode(tb: Table, id: nat, i: nat) {
    id in tb.bitmap && i < ENTRIES
  }

  /** MAPT block and place in it of a level block. */
  function BlkOf(id: nat): nat { id / PER_BLOCK }
  function SubOf(id: nat): (r: nat) ensures r < PER_BLOCK { id % PER_BLOCK }

  lemma IdSplit(id: nat, jd: nat)
    ensures BlkOf(id) == BlkOf(jd) && SubOf(id) == SubOf(jd) ==> id == jd
  {}

  predicate HasMem(tb: Table, id: nat) {
    BlkOf(id) in tb.blocks && |tb.blocks[BlkOf(id)].nodes| == PER_BLOCK && |tb.blocks[BlkOf(id)].entryCnt| == PER_BLOCK
  }

  function NodesOf(tb: Table, id: nat): seq<Node> {
    if HasMem(tb, id) then tb.blocks[BlkOf(id)].nodes[SubOf(id)] else []
  }

  function Count(tb: Table, id: nat): nat {
    if HasMem(tb, id) then tb.blocks[BlkOf(id)].entryCnt[SubOf(id)] else 0
  }

  function N(tb: Table, id: nat, i: nat): Node {
    if i < |NodesOf(tb, id)| then NodesOf(tb, id)[i] else ZERO
  }

  function Lv(tb: Table, id: nat): nat {
    if id in tb.pos then tb.pos[id].level else 0
  }

  function Pfx(tb: Table, id: nat): nat {
    if id in tb.pos then tb.pos[id].pfx else 0
  }

  /** First address of a node's span, and the address after its last one. */
  function Start(tb: Table, id: nat, i: nat): nat {
    EntryBase(Lv(tb, id), Pfx(tb, id), i)
  }

  function Stop(tb: Table, id: nat, i: nat): (r: nat)
    ensures r > Start(tb, id, i)
  {
    Start(tb, id, i) + Span(Lv(tb, id))
  }

  /** The node's own range is granted: not the 0xFFF marker, or not the free bit. */
  predicate InUse(fb: bool, n: Node) {
    n.valid && (if fb then !n.fBit else !(n.base % PAGE == INVALID_ADDR && n.limit % PAGE == INVALID_ADDR))
  }

  /** Number of the level block a node leads to. */
  function Next(n: Node): nat {
    n.nextIndex * PER_BLOCK + n.nextOffset / ENTRIES
  }

  predicate Own(tb: Table, id: nat, i: nat, name: nat) {
    IsNode(tb, id, i) && InUse(tb.fb, N(tb, id, i)) && N(tb, id, i).seg == name
  }

  // ---------------------------------------------------------------- structure

  /** Level blocks are placed on a grid: the root spans everything, the others are aligned. */
  ghost predicate Shape(tb: Table) {
    && 0 in tb.bitmap && Lv(tb, 0) == 0 && Pfx(tb, 0) == 0
    && (forall id :: id in tb.bitmap ==>
          && HasMem(tb, id) && |NodesOf(tb, id)| == ENTRIES && id in tb.pos
          && Lv(tb, id) < LEVELS && (Lv(tb, id) == 0 ==> id == 0)
          && Pfx(tb, id) % BlockSpan(Lv(tb, id)) == 0 && Pfx(tb, id) + BlockSpan(Lv(tb, id)) <= ADDRESSES)
  }

  /** A node with a next level leads to a level block that spans exactly the node. */
  predicate LeadsTo(tb: Table, id: nat, i: nat, c: nat) {
    && N(tb, id, i).valid && !N(tb, id, i).leaf && Next(N(tb, id, i)) == c
    && c in tb.bitmap && c != 0 && c in tb.up && tb.up[c] == (id, i)
    && Lv(tb, id) < 3 && Lv(tb, c) == Lv(tb, id) + 1 && Pfx(tb, c) == Start(tb, id, i)
    && N(tb, id, i).nextBlock == (BlkOf(id) != BlkOf(c))
    && N(tb, id, i).nextIndex == BlkOf(c) && N(tb, id, i).nextOffset == ENTRIES * SubOf(c)
  }

  predicate NodeForm(n: Node) {
    && (!n.valid ==> n == ZERO)
    && (n.valid && n.leaf ==> n.nextIndex == 0 && n.nextOffset == 0 && !n.nextBlock)
  }

  ghost predicate FormsOk(tb: Table) {
    forall id, i :: IsNode(tb, id, i) ==> NodeForm(N(tb, id, i))
  }

  ghost predicate LeadsOk(tb: Table) {
    forall id, i :: IsNode(tb, id, i) && N(tb, id, i).valid && !N(tb, id, i).leaf ==>
      LeadsTo(tb, id, i, Next(N(tb, id, i)))
  }

  ghost predicate UpsOk(tb: Table) {
    forall c :: c in tb.bitmap && c != 0 ==>
      c in tb.up && IsNode(tb, tb.up[c].0, tb.up[c].1) && LeadsTo(tb, tb.up[c].0, tb.up[c].1, c)
  }

  ghost predicate PlacesDiffer(tb: Table) {
    forall c, d :: c in tb.bitmap && d in tb.bitmap && Lv(tb, c) == Lv(tb, d) && Pfx(tb, c) == Pfx(tb, d) ==> c == d
  }

  /** Every level block but the root is reached through exactly one node. */
  ghost predicate Links(tb: Table) {
    FormsOk(tb) && LeadsOk(tb) && UpsOk(tb) && PlacesDiffer(tb)
  }

  /** A valid node holds a range or leads on; `hole` is a node being taken apart. */
  ghost predicate Used(tb: Table, hole: Option<(nat, nat)>) {
    forall id, i :: IsNode(tb, id, i) && N(tb, id, i).valid && hole != Some((id, i)) ==>
      InUse(tb.fb, N(tb, id, i)) || !N(tb, id, i).leaf
  }

  function CountValid(s: seq<Node>): nat {
    if |s| == 0 then 0 else CountValid(s[..|s| - 1]) + (if s[|s| - 1].valid then 1 else 0)
  }

  /** Every level block but the root has a valid node; `bare` is one that was just allocated. */
  ghost predicate NonEmpty(tb: Table, bare: Option<nat>) {
    forall c :: c in tb.bitmap && c != 0 && bare != Some(c) ==> CountValid(NodesOf(tb, c)) > 0
  }

  function Bit(bitmap: set<nat>, id: nat): nat {
    if id in bitmap then 1 else 0
  }

  function Bits(bitmap: set<nat>, b: nat): nat {
    var i := PER_BLOCK * b; Bit(bitmap, i) + Bit(bitmap, i + 1) + Bit(bitmap, i + 2) + Bit(bitmap, i + 3)
  }

  predicate BlockOk(tb: Table, b: nat, blk: Block) {
    && |blk.entryCnt| == PER_BLOCK && |blk.nodes| == PER_BLOCK
    && blk.levelCnt == Bits(tb.bitmap, b) && (b != 0 ==> blk.levelCnt > 0)
  }

  ghost predicate LevelOk(tb: Table, id: nat) {
    && HasMem(tb, id) && |NodesOf(tb, id)| == ENTRIES
    && (id in tb.bitmap ==> Count(tb, id) == CountValid(NodesOf(tb, id)))
    && (id !in tb.bitmap ==> Count(tb, id) == 0 && forall i :: N(tb, id, i) == ZERO)
  }

  /** level_cnt counts the level blocks in use of a MAPT block, level_entry_cnt the valid nodes of
      each; a MAPT block other than the first exists exactly while level_cnt is positive; unused
      level blocks are zero. */
  ghost predicate Accounts(tb: Table) {
    && 0 in tb.blocks
    && (forall b :: b in tb.blocks ==> BlockOk(tb, b, tb.blocks[b]))
    && (forall id :: BlkOf(id) in tb.blocks ==> LevelOk(tb, id))
    && (forall id :: id in tb.bitmap ==> id < MAX_IDS)
  }

  ghost predicate Structure(tb: Table, hole: Option<(nat, nat)>, bare: Option<nat>) {
    Shape(tb) && Links(tb) && Used(tb, hole) && NonEmpty(tb, bare) && Accounts(tb)
  }

  // ---------------------------------------------------------------- pieces

  predicate AttrOk(n: Node, s: Seg) {
    && n.perm == s.perm && n.eBit == s.eBit && n.check == s.check
    && (s.check ==> n.nonce == s.count && n.tok0 == s.tok0 && n.tok1 == s.tok1)
  }

  /** The own range is the whole intersection of segment `s` with the node's span. */
  predicate PieceOk(n: Node, s: Seg, start: nat, stop: nat) {
    && s.lo < stop && start <= s.hi
    && start + n.base == Max(start, s.lo) && start + n.limit + 1 == Min(stop, s.hi + 1)
    && AttrOk(n, s)
  }

  predicate Disjoint(s: Seg, t: Seg) {
    s.hi < t.lo || t.hi < s.lo
  }

  ghost predicate LiveOk(live: Live) {
    && (forall x :: x in live ==> live[x].lo <= live[x].hi < ADDRESSES && live[x].lo % PAGE == 0)
    && (forall x, y :: x in live && y in live && x != y ==> Disjoint(live[x], live[y]))
  }

  ghost predicate PiecesOk(tb: Table, live: Live) {
    forall id, i :: IsNode(tb, id, i) && InUse(tb.fb, N(tb, id, i)) ==>
      && N(tb, id, i).seg in live
      && PieceOk(N(tb, id, i), live[N(tb, id, i).seg], Start(tb, id, i), Stop(tb, id, i))
  }

  predicate Holds(tb: Table, id: nat, i: nat, name: nat, a: nat) {
    Own(tb, id, i, name) && Start(tb, id, i) <= a < Stop(tb, id, i)
  }

  predicate Within(s: Seg, a: nat) {
    s.lo <= a <= s.hi
  }

  ghost predicate HeldAt(tb: Table, name: nat, a: nat) {
    exists id, i :: Holds(tb, id, i, name, a)
  }

  /** Every address of a live segment lies in one of its pieces. */
  ghost predicate Covered(tb: Table, live: Live) {
    forall x, a :: x in live && Within(live[x], a) ==> HeldAt(tb, x, a)
  }

  /** The nodes that hold pieces of one segment have disjoint spans. */
  ghost predicate Apart(tb: Table) {
    forall x, id, i, jd, j :: Own(tb, id, i, x) && Own(tb, jd, j, x) && (id, i) != (jd, j) ==>
      Stop(tb, id, i) <= Start(tb, jd, j) || Stop(tb, jd, j) <= Start(tb, id, i)
  }

  ghost predicate Pieces(tb: Table, live: Live) {
    LiveOk(live) && PiecesOk(tb, live) && Covered(tb, live) && Apart(tb)
  }

  /** No piece of `[lo, hi]` lies in a level block that `[lo, hi]` covers whole. */
  ghost predicate Low(tb: Table, name: nat, lo: nat, hi: nat) {
    forall id, i :: Own(tb, id, i, name) && id != 0 ==>
      !(lo <= Pfx(tb, id) && Pfx(tb, id) + BlockSpan(Lv(tb, id)) - 1 <= hi)
  }

  /** Segments sit as high in the table as they can. */
  ghost predicate Highest(tb: Table, live: Live) {
    forall x :: x in live ==> Low(tb, x, live[x].lo, live[x].hi)
  }

  /** The table represents exactly the live segments. */
  ghost predicate Inv(tb: Table, live: Live, hole: Option<(nat, nat)>, bare: Option<nat>) {
    Structure(tb, hole, bare) && Pieces(tb, live) && Highest(tb, live)
  }
}
