/** How the spans of nodes and level blocks nest. */
module MaptGrid {
  import opened Basics
  import opened MaptModel
  import opened MaptInv
  import opened MaptUpdates

  predicate Spans(tb: Table, id: nat, i: nat, a: nat) {
    Start(tb, id, i) <= a < Stop(tb, id, i)
  }

  lemma NodeInBlock(tb: Table, id: nat, i: nat)
    requires Shape(tb) && IsNode(tb, id, i)
    ensures Pfx(tb, id) <= Start(tb, id, i) && Stop(tb, id, i) <= Pfx(tb, id) + BlockSpan(Lv(tb, id))
  {
    hide BlockSpan, HasMem, NodesOf, EntryBase;
    EntryFits(Lv(tb, id), Pfx(tb, id), i);
  }

  /** Two nodes of one level that share an address are the same node. */
  lemma Grid(tb: Table, id: nat, i: nat, jd: nat, j: nat, a: nat)
    requires Shape(tb) && PlacesDiffer(tb) && IsNode(tb, id, i) && IsNode(tb, jd, j)
    requires Lv(tb, id) == Lv(tb, jd) && Spans(tb, id, i, a) && Spans(tb, jd, j, a)
    ensures id == jd && i == j
  {
    hide BlockSpan, HasMem, NodesOf, EntryBase;
    NodeInBlock(tb, id, i);
    NodeInBlock(tb, jd, j);
    var l := Lv(tb, id);
    SameCell(l, Pfx(tb, id), Pfx(tb, jd), a);
    if j < i {
      EntryOrder(l, Pfx(tb, id), j, i);
    } else if i < j {
      EntryOrder(l, Pfx(tb, id), i, j);
    }
  }

  /** A level block spans exactly the node that leads to it. */
  lemma UpSpan(tb: Table, c: nat)
    requires Shape(tb) && UpsOk(tb) && c in tb.bitmap && c != 0
    ensures var (p, j) := tb.up[c];
            && IsNode(tb, p, j) && LeadsTo(tb, p, j, c) && Leading(N(tb, p, j)) && Lv(tb, p) + 1 == Lv(tb, c)
            && Pfx(tb, c) == Start(tb, p, j) && Pfx(tb, c) + BlockSpan(Lv(tb, c)) == Stop(tb, p, j)
  {
    hide BlockSpan, HasMem, NodesOf, EntryBase, N, BlkOf, SubOf, Next;
    NextSpan(Lv(tb, tb.up[c].0));
  }

  /** Every level above a level block has a node whose span contains the block; it leads on. */
  lemma Ancestor(tb: Table, id: nat, l: nat) returns (aid: nat, ai: nat)
    requires Shape(tb) && UpsOk(tb) && id in tb.bitmap && l < Lv(tb, id)
    ensures IsNode(tb, aid, ai) && Lv(tb, aid) == l && Leading(N(tb, aid, ai))
    ensures Start(tb, aid, ai) <= Pfx(tb, id) && Pfx(tb, id) + BlockSpan(Lv(tb, id)) <= Stop(tb, aid, ai)
    decreases Lv(tb, id)
  {
    hide BlockSpan, HasMem, NodesOf, EntryBase, N, BlkOf, SubOf, Next, LeadsTo;
    UpSpan(tb, id);
    var (p, j) := tb.up[id];
    if Lv(tb, p) == l {
      aid, ai := p, j;
    } else {
      NodeInBlock(tb, p, j);
      aid, ai := Ancestor(tb, p, l);
    }
  }

  /** A node that shares an address with a node of a deeper level leads on and contains it. */
  lemma Nested(tb: Table, id: nat, i: nat, jd: nat, j: nat, a: nat)
    requires Shape(tb) && UpsOk(tb) && PlacesDiffer(tb) && IsNode(tb, id, i) && IsNode(tb, jd, j)
    requires Lv(tb, id) < Lv(tb, jd) && Spans(tb, id, i, a) && Spans(tb, jd, j, a)
    ensures Leading(N(tb, id, i)) && Start(tb, id, i) <= Start(tb, jd, j) && Stop(tb, jd, j) <= Stop(tb, id, i)
    ensures Start(tb, id, i) <= Pfx(tb, jd) && Pfx(tb, jd) + BlockSpan(Lv(tb, jd)) <= Stop(tb, id, i)
  {
    hide BlockSpan, HasMem, NodesOf, EntryBase, N, LeadsTo, Leading;
    NodeInBlock(tb, jd, j);
    var aid, ai := Ancestor(tb, jd, Lv(tb, id));
    Grid(tb, id, i, aid, ai, a);
  }

  /** The same for a level block and a node that shares an address with it. */
  lemma BlockNested(tb: Table, id: nat, jd: nat, j: nat, a: nat)
    requires Shape(tb) && UpsOk(tb) && PlacesDiffer(tb) && id in tb.bitmap && IsNode(tb, jd, j)
    requires Lv(tb, jd) < Lv(tb, id) && Spans(tb, jd, j, a)
    requires Pfx(tb, id) <= a < Pfx(tb, id) + BlockSpan(Lv(tb, id))
    ensures Leading(N(tb, jd, j)) && Start(tb, jd, j) <= Pfx(tb, id)
    ensures Pfx(tb, id) + BlockSpan(Lv(tb, id)) <= Stop(tb, jd, j)
  {
    hide BlockSpan, HasMem, NodesOf, EntryBase, N, LeadsTo, Leading;
    var aid, ai := Ancestor(tb, id, Lv(tb, jd));
    Grid(tb, jd, j, aid, ai, a);
  }

  /** A valid node holds a piece itself or has one below it. */
  lemma {:induction false} ValidHolds(tb: Table, id: nat, i: nat) returns (jd: nat, j: nat)
    requires Structure(tb, None, None) && IsNode(tb, id, i) && N(tb, id, i).valid
    ensures IsNode(tb, jd, j) && InUse(tb.fb, N(tb, jd, j)) && Lv(tb, jd) >= Lv(tb, id)
    ensures Start(tb, id, i) <= Start(tb, jd, j) && Stop(tb, jd, j) <= Stop(tb, id, i)
    decreases 4 - Lv(tb, id)
  {
    hide BlockSpan, HasMem, NodesOf, EntryBase, BlkOf, SubOf, Next, InUse, CountValid, Accounts;
    if InUse(tb.fb, N(tb, id, i)) {
      jd, j := id, i;
    } else {
      var c := Next(N(tb, id, i));
      assert LeadsTo(tb, id, i, c);
      UpSpan(tb, c);
      var k := ValidIn(tb, c);
      hide N;
      NodeInBlock(tb, c, k);
      jd, j := ValidHolds(tb, c, k);
    }
  }

  lemma ValidIn(tb: Table, c: nat) returns (k: nat)
    requires Shape(tb) && NonEmpty(tb, None) && c in tb.bitmap && c != 0
    ensures IsNode(tb, c, k) && N(tb, c, k).valid
  {
    hide BlockSpan, HasMem;
    k := CountWitness(NodesOf(tb, c));
  }
}
