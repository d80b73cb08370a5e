/** The elementary updates of the permission table and what each keeps. */
module MaptUpdates {
  import opened Basics
  import opened MaptModel
  import opened MaptInv

  // ---------------------------------------------------------------- counting valid nodes

  function One(n: Node): nat { if n.valid then 1 else 0 }

  lemma CountUpdate(s: seq<Node>, i: nat, n: Node)
    requires i < |s|
    ensures CountValid(s[i := n]) + One(s[i]) == CountValid(s) + One(n)
  {
    var s' := s[i := n];
    if i == |s| - 1 {
      assert s'[..|s| - 1] == s[..|s| - 1];
    } else {
      CountUpdate(s[..|s| - 1], i, n);
      assert s'[..|s| - 1] == s[..|s| - 1][i := n];
    }
  }

  lemma CountWitness(s: seq<Node>) returns (i: nat)
    requires CountValid(s) > 0
    ensures i < |s| && s[i].valid
  {
    if s[|s| - 1].valid {
      i := |s| - 1;
    } else {
      i := CountWitness(s[..|s| - 1]);
    }
  }

  lemma CountPositive(s: seq<Node>, i: nat)
    requires i < |s| && s[i].valid
    ensures CountValid(s) > 0
  {
    if i < |s| - 1 {
      CountPositive(s[..|s| - 1], i);
    }
  }

  lemma CountNone(s: seq<Node>)
    requires forall i :: 0 <= i < |s| ==> !s[i].valid
    ensures CountValid(s) == 0
  {}

  // ---------------------------------------------------------------- updating one node

  /** Replace the nodes and the count (ummu_modify_entry_cnt) of a level block. */
  function SetLevel(tb: Table, id: nat, nodes: seq<Node>, cnt: nat): Table
    requires HasMem(tb, id)
  {
    var b, q := BlkOf(id), SubOf(id);
    tb.(blocks := tb.blocks[b := tb.blocks[b].(nodes := tb.blocks[b].nodes[q := nodes],
                                               entryCnt := tb.blocks[b].entryCnt[q := cnt])])
  }

  predicate SameForm(x: Block, y: Block) {
    x.levelCnt == y.levelCnt && |x.nodes| == |y.nodes| && |x.entryCnt| == |y.entryCnt|
  }

  lemma SetLevelGet(tb: Table, id: nat, nodes: seq<Node>, cnt: nat)
    requires HasMem(tb, id)
    ensures var tb' := SetLevel(tb, id, nodes, cnt);
            && tb'.fb == tb.fb && tb'.bitmap == tb.bitmap && tb'.pos == tb.pos && tb'.up == tb.up
            && tb'.blocks.Keys == tb.blocks.Keys
            && (forall jd :: HasMem(tb', jd) <==> HasMem(tb, jd))
            && (forall jd :: NodesOf(tb', jd) == if jd == id then nodes else NodesOf(tb, jd))
            && (forall jd :: Count(tb', jd) == if jd == id then cnt else Count(tb, jd))
            && (forall b :: b in tb.blocks ==> SameForm(tb'.blocks[b], tb.blocks[b]))
  {
    hide BlkOf, SubOf;
    forall jd ensures BlkOf(id) == BlkOf(jd) && SubOf(id) == SubOf(jd) ==> id == jd {
      IdSplit(id, jd);
    }
  }

  /** Replace a node and adjust the count of valid nodes of its level block. */
  function Put(tb: Table, id: nat, i: nat, n: Node): Table {
    if HasMem(tb, id) && i < |NodesOf(tb, id)| then
      var cnt := Count(tb, id) + One(n);
      SetLevel(tb, id, NodesOf(tb, id)[i := n], if cnt >= One(N(tb, id, i)) then cnt - One(N(tb, id, i)) else 0)
    else tb
  }

  lemma PutGet(tb: Table, id: nat, i: nat, n: Node)
    requires Shape(tb) && IsNode(tb, id, i)
    ensures var tb' := Put(tb, id, i, n);
            && tb'.fb == tb.fb && tb'.bitmap == tb.bitmap && tb'.pos == tb.pos && tb'.up == tb.up
            && tb'.blocks.Keys == tb.blocks.Keys
            && (forall jd :: HasMem(tb', jd) <==> HasMem(tb, jd))
            && (forall jd :: NodesOf(tb', jd) == if jd == id then NodesOf(tb, id)[i := n] else NodesOf(tb, jd))
            && (forall jd, j :: N(tb', jd, j) == if jd == id && j == i then n else N(tb, jd, j))
  {
    hide BlockSpan, BlkOf, SubOf;
    var cnt := Count(tb, id) + One(n);
    SetLevelGet(tb, id, NodesOf(tb, id)[i := n], if cnt >= One(N(tb, id, i)) then cnt - One(N(tb, id, i)) else 0);
    hide NodesOf, HasMem, SetLevel;
  }

  lemma PutShape(tb: Table, id: nat, i: nat, n: Node)
    requires Shape(tb) && IsNode(tb, id, i)
    ensures Shape(Put(tb, id, i, n))
  {
    hide BlockSpan, NodesOf, HasMem;
    PutGet(tb, id, i, n);
    hide Put;
  }

  predicate Leading(n: Node) { n.valid && !n.leaf }

  predicate SameNext(m: Node, n: Node) {
    m.nextIndex == n.nextIndex && m.nextOffset == n.nextOffset && m.nextBlock == n.nextBlock
  }

  lemma LeadsSame(tb: Table, tb': Table, id: nat, i: nat, c: nat)
    requires LeadsTo(tb, id, i, c)
    requires tb'.bitmap == tb.bitmap && tb'.pos == tb.pos && tb'.up == tb.up
    requires Leading(N(tb', id, i)) && SameNext(N(tb', id, i), N(tb, id, i))
    ensures LeadsTo(tb', id, i, c)
  {
    hide EntryBase, N;
  }

  lemma PutLinks(tb: Table, id: nat, i: nat, n: Node)
    requires Shape(tb) && Links(tb) && IsNode(tb, id, i) && NodeForm(n)
    requires Leading(n) == Leading(N(tb, id, i)) && (Leading(n) ==> SameNext(n, N(tb, id, i)))
    ensures Links(Put(tb, id, i, n))
  {
    hide EntryBase, Next, NodesOf, HasMem, BlkOf, SubOf;
    PutGet(tb, id, i, n);
    var tb' := Put(tb, id, i, n);
    hide Put, N, Shape;
    assert FormsOk(tb');
    forall jd, j | IsNode(tb', jd, j) && Leading(N(tb', jd, j))
      ensures LeadsTo(tb', jd, j, Next(N(tb', jd, j)))
    {
      assert Next(N(tb', jd, j)) == Next(N(tb, jd, j)) by { NextSame(N(tb', jd, j), N(tb, jd, j)); }
      LeadsSame(tb, tb', jd, j, Next(N(tb, jd, j)));
    }
    forall c | c in tb'.bitmap && c != 0
      ensures LeadsTo(tb', tb'.up[c].0, tb'.up[c].1, c)
    {
      LeadsValid(tb, tb.up[c].0, tb.up[c].1, c);
      LeadsSame(tb, tb', tb.up[c].0, tb.up[c].1, c);
    }
    hide LeadsTo;
  }

  lemma NextSame(m: Node, n: Node)
    requires SameNext(m, n)
    ensures Next(m) == Next(n)
  {}

  lemma LeadsValid(tb: Table, id: nat, i: nat, c: nat)
    requires LeadsTo(tb, id, i, c)
    ensures Leading(N(tb, id, i)) && Next(N(tb, id, i)) == c
  {
    hide EntryBase, N;
  }

  lemma PutCounts(tb: Table, id: nat, i: nat, n: Node)
    requires Shape(tb) && Accounts(tb) && IsNode(tb, id, i)
    ensures var tb' := Put(tb, id, i, n);
            && CountValid(NodesOf(tb', id)) + One(N(tb, id, i)) == CountValid(NodesOf(tb, id)) + One(n)
            && Count(tb', id) == CountValid(NodesOf(tb', id))
            && (forall jd :: jd != id ==> Count(tb', jd) == Count(tb, jd))
            && (forall b :: b in tb.blocks ==> SameForm(tb'.blocks[b], tb.blocks[b]))
    ensures Count(tb, id) == CountValid(NodesOf(tb, id))
  {
    hide BlockSpan, BlkOf, SubOf, CountValid, BlockOk;
    assert LevelOk(tb, id);
    CountUpdate(NodesOf(tb, id), i, n);
    PutGet(tb, id, i, n);
    var cnt := Count(tb, id) + One(n);
    SetLevelGet(tb, id, NodesOf(tb, id)[i := n], if cnt >= One(N(tb, id, i)) then cnt - One(N(tb, id, i)) else 0);
    hide SetLevel, HasMem, Count, NodesOf;
  }

  lemma PutAccounts(tb: Table, id: nat, i: nat, n: Node)
    requires Shape(tb) && Accounts(tb) && IsNode(tb, id, i)
    ensures Accounts(Put(tb, id, i, n))
  {
    hide BlockSpan, BlkOf, SubOf, CountValid, Bits;
    PutCounts(tb, id, i, n);
    PutGet(tb, id, i, n);
    var tb' := Put(tb, id, i, n);
    hide Put, HasMem, NodesOf, Count, N;
    assert forall b :: b in tb'.blocks ==> BlockOk(tb', b, tb'.blocks[b]);
    forall jd | BlkOf(jd) in tb'.blocks ensures LevelOk(tb', jd) {
      assert LevelOk(tb, jd);
    }
    hide LevelOk, BlockOk;
  }

  lemma PutNonEmpty(tb: Table, id: nat, i: nat, n: Node, bare: Option<nat>)
    requires Shape(tb) && Accounts(tb) && IsNode(tb, id, i)
    requires NonEmpty(tb, bare) || (NonEmpty(tb, Some(id)) && n.valid)
    requires n.valid || CountValid(NodesOf(Put(tb, id, i, n), id)) > 0 || bare == Some(id) || id == 0
    ensures NonEmpty(Put(tb, id, i, n), bare)
  {
    hide BlockSpan, BlkOf, SubOf, CountValid, Bits, Accounts, HasMem;
    PutGet(tb, id, i, n);
    if n.valid {
      CountPositive(NodesOf(Put(tb, id, i, n), id), i);
    }
    hide Put, NodesOf;
  }

  lemma PutUsed(tb: Table, id: nat, i: nat, n: Node, hole: Option<(nat, nat)>)
    requires Shape(tb) && IsNode(tb, id, i)
    requires Used(tb, hole) || Used(tb, Some((id, i)))
    requires n.valid ==> InUse(tb.fb, n) || !n.leaf || hole == Some((id, i))
    requires Used(tb, Some((id, i))) && !Used(tb, hole) ==> hole == None
    ensures Used(Put(tb, id, i, n), hole)
  {
    hide BlockSpan, EntryBase, InUse, NodesOf, HasMem;
    PutGet(tb, id, i, n);
    hide N, Put;
  }
}
