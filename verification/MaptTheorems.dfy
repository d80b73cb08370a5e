/** What a table that represents a set of segments permits, and how it is laid out. */
module MaptTheorems {
  import opened Basics
  import opened MaptModel
  import opened MaptInv
  import opened MaptUpdates
  import opened MaptGrid
  import opened MaptPieces
  import opened MaptSteps
  import opened MaptDecide
  import opened MaptExt

  // ---------------------------------------------------------------- permitted addresses

  /** Node `(id, i)` permits address `a`: its own range, rebuilt with its place in the table, contains it. */
  predicate PermitsAt(tb: Table, id: nat, i: nat, a: nat) {
    && IsNode(tb, id, i) && InUse(tb.fb, N(tb, id, i))
    && Start(tb, id, i) + N(tb, id, i).base <= a <= Start(tb, id, i) + N(tb, id, i).limit
  }

  /** The table permits `a` with this permission and e-bit. */
  ghost predicate Permits(tb: Table, a: nat, perm: nat, eBit: nat) {
    exists id, i :: PermitsAt(tb, id, i, a) && N(tb, id, i).perm == perm && N(tb, id, i).eBit == eBit
  }

  predicate SegPermits(live: Live, x: nat, a: nat, perm: nat, eBit: nat) {
    x in live && Within(live[x], a) && live[x].perm == perm && live[x].eBit == eBit
  }

  ghost predicate LivePermits(live: Live, a: nat, perm: nat, eBit: nat) {
    exists x :: SegPermits(live, x, a, perm, eBit)
  }

  /** A node permits only addresses of the segment it belongs to, and with that segment's attributes. */
  lemma PermitsOnly(tb: Table, live: Live, id: nat, i: nat, a: nat)
    requires Inv(tb, live, None, None) && PermitsAt(tb, id, i, a)
    ensures var n := N(tb, id, i); n.seg in live && Within(live[n.seg], a) && AttrOk(n, live[n.seg])
  {
    hide N, InUse, Start, Stop, Structure, Highest, Covered, Apart;
    var n := N(tb, id, i);
    assert PieceOk(n, live[n.seg], Start(tb, id, i), Stop(tb, id, i));
  }

  /** Every address of a segment is permitted by a node of that segment. */
  lemma PermitsAll(tb: Table, live: Live, x: nat, a: nat) returns (id: nat, i: nat)
    requires Inv(tb, live, None, None) && x in live && Within(live[x], a)
    ensures PermitsAt(tb, id, i, a) && N(tb, id, i).seg == x && AttrOk(N(tb, id, i), live[x])
  {
    hide N, InUse, Start, Stop, Structure, Highest, Apart;
    assert HeldAt(tb, x, a);
    id, i :| Holds(tb, id, i, x, a);
    assert PieceOk(N(tb, id, i), live[x], Start(tb, id, i), Stop(tb, id, i));
  }

  /** The permitted addresses are exactly those of the live segments. */
  lemma PermitsExact(tb: Table, live: Live, a: nat, perm: nat, eBit: nat)
    requires Inv(tb, live, None, None)
    ensures Permits(tb, a, perm, eBit) <==> LivePermits(live, a, perm, eBit)
  {
    hide N, Inv, PermitsAt;
    if Permits(tb, a, perm, eBit) {
      var id, i :| PermitsAt(tb, id, i, a) && N(tb, id, i).perm == perm && N(tb, id, i).eBit == eBit;
      PermitsOnly(tb, live, id, i, a);
      assert SegPermits(live, N(tb, id, i).seg, a, perm, eBit);
    }
    if LivePermits(live, a, perm, eBit) {
      var x :| SegPermits(live, x, a, perm, eBit);
      var id, i := PermitsAll(tb, live, x, a);
    }
  }

  /** No address is permitted twice. */
  lemma PermitsOnce(tb: Table, live: Live, a: nat, id: nat, i: nat, jd: nat, j: nat)
    requires Inv(tb, live, None, None) && PermitsAt(tb, id, i, a) && PermitsAt(tb, jd, j, a)
    ensures id == jd && i == j
  {
    hide N, InUse, Start, Stop, Structure, Highest, Covered;
    PermitsOnly(tb, live, id, i, a);
    PermitsOnly(tb, live, jd, j, a);
    var x, y := N(tb, id, i).seg, N(tb, jd, j).seg;
    assert x != y ==> Disjoint(live[x], live[y]);
    assert PieceOk(N(tb, id, i), live[x], Start(tb, id, i), Stop(tb, id, i));
    assert PieceOk(N(tb, jd, j), live[y], Start(tb, jd, j), Stop(tb, jd, j));
    assert Own(tb, id, i, x) && Own(tb, jd, j, y);
  }

  /** A grant adds exactly its range; read the other way, an ungrant removes exactly its range. */
  lemma GrantAddsExactly(tb: Table, tb': Table, live: Live, s: Seg, a: nat, perm: nat, eBit: nat)
    requires Inv(tb, live, None, None) && Inv(tb', live[s.lo := s], None, None) && Fits(live, s.lo, s)
    ensures Permits(tb', a, perm, eBit) <==>
            Permits(tb, a, perm, eBit) || (s.lo <= a <= s.hi && perm == s.perm && eBit == s.eBit)
  {
    hide Inv, Permits, Fits;
    PermitsExact(tb, live, a, perm, eBit);
    PermitsExact(tb', live[s.lo := s], a, perm, eBit);
    var live' := live[s.lo := s];
    assert SegPermits(live', s.lo, a, perm, eBit) <==> s.lo <= a <= s.hi && perm == s.perm && eBit == s.eBit;
    FitsNew(live, s);
    assert forall x :: x != s.lo ==> SegPermits(live', x, a, perm, eBit) == SegPermits(live, x, a, perm, eBit);
  }

  lemma FitsNew(live: Live, s: Seg)
    requires Fits(live, s.lo, s)
    ensures s.lo !in live
  {}

  /** The two encodings of removed ranges permit the same. */
  lemma EncodingsAgree(tb: Table, tb': Table, live: Live, a: nat, perm: nat, eBit: nat)
    requires Inv(tb, live, None, None) && Inv(tb', live, None, None) && tb.fb && !tb'.fb
    ensures Permits(tb, a, perm, eBit) <==> Permits(tb', a, perm, eBit)
  {
    hide Inv, Permits, LivePermits;
    PermitsExact(tb, live, a, perm, eBit);
    PermitsExact(tb', live, a, perm, eBit);
  }

  /** Every node with a piece of a token-checked segment carries the tokens and count of its record. */
  lemma PiecesCarryTokens(tb: Table, live: Live, x: nat, id: nat, i: nat)
    requires Inv(tb, live, None, None) && Own(tb, id, i, x)
    ensures x in live
    ensures var n := N(tb, id, i);
            live[x].check ==> n.nonce == live[x].count && n.tok0 == live[x].tok0 && n.tok1 == live[x].tok1
  {
    hide N, InUse, Start, Stop, Structure, Highest, Covered, Apart, LiveOk;
    assert PieceOk(N(tb, id, i), live[x], Start(tb, id, i), Stop(tb, id, i));
  }

  // ---------------------------------------------------------------- layout

  /** Every level block in use but the root is reached through exactly one node. */
  lemma ReachedOnce(tb: Table, live: Live, c: nat, id: nat, i: nat)
    requires Inv(tb, live, None, None) && c in tb.bitmap && c != 0 && IsNode(tb, id, i) && Leading(N(tb, id, i))
    requires Next(N(tb, id, i)) == c
    ensures c in tb.up && tb.up[c] == (id, i) && Lv(tb, c) == Lv(tb, id) + 1
  {
    hide N, Next, Shape, Used, NonEmpty, Accounts, UpsOk, PlacesDiffer, FormsOk, Pieces, Highest;
    assert LeadsTo(tb, id, i, c);
  }

  lemma Reached(tb: Table, live: Live, c: nat) returns (id: nat, i: nat)
    requires Inv(tb, live, None, None) && c in tb.bitmap && c != 0
    ensures IsNode(tb, id, i) && Leading(N(tb, id, i)) && Next(N(tb, id, i)) == c
  {
    hide N, Next, Shape, Used, NonEmpty, Accounts, LeadsOk, PlacesDiffer, FormsOk, Pieces, Highest;
    id, i := tb.up[c].0, tb.up[c].1;
    LeadsValid(tb, id, i, c);
  }

  /** The level block reached from the root by taking these nodes, one of each level. */
  function Follow(tb: Table, path: seq<nat>): Option<nat> {
    if path == [] then Some(0)
    else
      var r, i := Follow(tb, path[..|path| - 1]), path[|path| - 1];
      if r.Some? && IsNode(tb, r.value, i) && Leading(N(tb, r.value, i)) then Some(Next(N(tb, r.value, i))) else None
  }

  /** Every set bitmap bit is reached from the root, by as many nodes as its level. */
  lemma {:induction false} PathTo(tb: Table, live: Live, c: nat) returns (path: seq<nat>)
    requires Inv(tb, live, None, None) && c in tb.bitmap
    ensures Follow(tb, path) == Some(c) && |path| == Lv(tb, c)
    decreases Lv(tb, c)
  {
    hide N, Next, Inv;
    if c == 0 {
      RootLevel(tb, live);
      path := [];
    } else {
      var id, i := Reached(tb, live, c);
      ReachedOnce(tb, live, c, id, i);
      var p := PathTo(tb, live, id);
      path := p + [i];
      assert path[..|path| - 1] == p;
    }
  }

  lemma RootLevel(tb: Table, live: Live)
    requires Inv(tb, live, None, None)
    ensures Lv(tb, 0) == 0
  {
    hide N, HasMem, NodesOf, BlockSpan, Links, Used, NonEmpty, Accounts, Pieces, Highest;
  }

  /** What is reached is in use, and its level is the length of the path. */
  lemma {:induction false} PathLevel(tb: Table, live: Live, path: seq<nat>)
    requires Inv(tb, live, None, None) && Follow(tb, path).Some?
    ensures var c := Follow(tb, path).value; c in tb.bitmap && Lv(tb, c) == |path| && (c == 0 <==> path == [])
  {
    hide N, Next;
    if path == [] {
      RootLevel(tb, live);
      assert Shape(tb);
      hide Inv;
    } else {
      hide Inv;
      PathLevel(tb, live, path[..|path| - 1]);
      LeadsOn(tb, live, Follow(tb, path[..|path| - 1]).value, path[|path| - 1]);
    }
  }

  lemma LeadsOn(tb: Table, live: Live, id: nat, i: nat)
    requires Inv(tb, live, None, None) && IsNode(tb, id, i) && Leading(N(tb, id, i))
    ensures var c := Next(N(tb, id, i)); c in tb.bitmap && c != 0 && Lv(tb, c) == Lv(tb, id) + 1
  {
    hide N, Next, Shape, Used, NonEmpty, Accounts, UpsOk, PlacesDiffer, FormsOk, Pieces, Highest;
    assert LeadsTo(tb, id, i, Next(N(tb, id, i)));
  }

  /** The path from the root to a level block is unique. */
  lemma {:induction false} PathOnce(tb: Table, live: Live, p: seq<nat>, q: seq<nat>)
    requires Inv(tb, live, None, None) && Follow(tb, p).Some? && Follow(tb, p) == Follow(tb, q)
    ensures p == q
  {
    hide N, Next, Inv;
    PathLevel(tb, live, p);
    PathLevel(tb, live, q);
    if p != [] {
      var c, n := Follow(tb, p).value, |p| - 1;
      var pd, qd := Follow(tb, p[..n]).value, Follow(tb, q[..n]).value;
      ReachedOnce(tb, live, c, pd, p[n]);
      ReachedOnce(tb, live, c, qd, q[n]);
      PathOnce(tb, live, p[..n], q[..n]);
      assert p == p[..n] + [p[n]] && q == q[..n] + [q[n]];
    }
  }

  /** The counters: valid nodes of each level block, level blocks of each MAPT block; a MAPT block other
      than the first exists exactly while it has a level block. */
  lemma Counters(tb: Table, live: Live)
    requires Inv(tb, live, None, None)
    ensures forall id :: id in tb.bitmap ==> Count(tb, id) == CountValid(NodesOf(tb, id)) && BlkOf(id) in tb.blocks
    ensures forall b :: b in tb.blocks ==> tb.blocks[b].levelCnt == Bits(tb.bitmap, b)
    ensures forall b :: b in tb.blocks && b != 0 ==> exists id :: id in tb.bitmap && BlkOf(id) == b
  {
    hide N, Links, Used, NonEmpty, BlkOf, SubOf, Bits, CountValid, BlockSpan, Pieces, Highest;
    forall id | id in tb.bitmap ensures Count(tb, id) == CountValid(NodesOf(tb, id)) && BlkOf(id) in tb.blocks {
      assert LevelOk(tb, id);
    }
    hide LevelOk, Shape, HasMem, NodesOf, Count;
    forall b | b in tb.blocks && b != 0 ensures exists id :: id in tb.bitmap && BlkOf(id) == b {
      assert BlockOk(tb, b, tb.blocks[b]);
      var id := BlockHasBit(tb.bitmap, b);
    }
  }

  /** No node above `(id, i)` holds segment `x`: of the at most three nodes above, whose spans contain it. */
  ghost predicate NotAbove(tb: Table, id: nat, i: nat, x: nat) {
    forall jd, j :: Own(tb, jd, j, x) && Lv(tb, jd) < Lv(tb, id) ==> !Spans(tb, jd, j, Start(tb, id, i))
  }

  /** Segment `x` has address `a` in the span of the node, and no node above holds it. */
  ghost predicate Belongs(tb: Table, live: Live, id: nat, i: nat, x: nat, a: nat) {
    x in live && Within(live[x], a) && Spans(tb, id, i, a) && NotAbove(tb, id, i, x)
  }

  /** A node is valid exactly if a live segment that no node above holds has an address in its span. */
  lemma ValidExactly(tb: Table, live: Live, id: nat, i: nat)
    requires Inv(tb, live, None, None) && IsNode(tb, id, i)
    ensures N(tb, id, i).valid <==> exists x, a :: Belongs(tb, live, id, i, x, a)
  {
    hide N, Inv, Belongs;
    if N(tb, id, i).valid {
      var x, a := ValidGives(tb, live, id, i);
    }
    if exists x, a :: Belongs(tb, live, id, i, x, a) {
      var x, a :| Belongs(tb, live, id, i, x, a);
      BelongsGives(tb, live, id, i, x, a);
    }
  }

  lemma ValidGives(tb: Table, live: Live, id: nat, i: nat) returns (x: nat, a: nat)
    requires Inv(tb, live, None, None) && IsNode(tb, id, i) && N(tb, id, i).valid
    ensures Belongs(tb, live, id, i, x, a)
  {
    hide N, InUse, Start, Stop, Highest, Covered, Used, NonEmpty, Accounts, LeadsOk, FormsOk, LeadsTo, Shape, UpsOk,
         PlacesDiffer;
    var jd, j := ValidHolds(tb, id, i);
    x := N(tb, jd, j).seg;
    assert PieceOk(N(tb, jd, j), live[x], Start(tb, jd, j), Stop(tb, jd, j));
    a := Max(Start(tb, jd, j), live[x].lo);
    assert Own(tb, jd, j, x);
    hide PiecesOk, LiveOk;
    forall kd: nat, k: nat | Own(tb, kd, k, x) && Lv(tb, kd) < Lv(tb, id) ensures !Spans(tb, kd, k, Start(tb, id, i)) {
      SpanStart(tb, id, i);
      if Spans(tb, kd, k, Start(tb, id, i)) {
        Nested(tb, kd, k, id, i, Start(tb, id, i));
      }
    }
  }

  lemma SpanStart(tb: Table, id: nat, i: nat)
    ensures Spans(tb, id, i, Start(tb, id, i))
  {
    hide Start;
  }

  /** What is not held above is held at the node or below it. */
  lemma BelongsGives(tb: Table, live: Live, id: nat, i: nat, x: nat, a: nat)
    requires Inv(tb, live, None, None) && IsNode(tb, id, i) && Belongs(tb, live, id, i, x, a)
    ensures N(tb, id, i).valid
  {
    hide N, InUse, Start, Stop, PiecesOk, Apart, LiveOk, Highest, Used, NonEmpty, Accounts, LeadsOk, FormsOk, LeadsTo;
    assert HeldAt(tb, x, a);
    var jd, j :| Holds(tb, jd, j, x, a);
    if Lv(tb, jd) < Lv(tb, id) {
      Nested(tb, jd, j, id, i, a);
      SpanStart(tb, id, i);
    } else {
      HeldGives(tb, live, id, i, jd, j, x, a);
    }
  }

  lemma HeldGives(tb: Table, live: Live, id: nat, i: nat, jd: nat, j: nat, x: nat, a: nat)
    requires Inv(tb, live, None, None) && IsNode(tb, id, i) && Spans(tb, id, i, a) && Holds(tb, jd, j, x, a)
    requires Lv(tb, jd) >= Lv(tb, id)
    ensures N(tb, id, i).valid
  {
    hide N, InUse, Start, Stop, Pieces, Highest, Used, NonEmpty, Accounts, LeadsOk, FormsOk, LeadsTo;
    if Lv(tb, jd) == Lv(tb, id) {
      Grid(tb, id, i, jd, j, a);
      OwnValid(tb, id, i, x);
    } else {
      Nested(tb, id, i, jd, j, a);
    }
  }

  /** At the root no node is above, so there a node is valid exactly if a live segment meets its span. */
  lemma RootValidExactly(tb: Table, live: Live, i: nat)
    requires Inv(tb, live, None, None) && i < ENTRIES
    ensures N(tb, 0, i).valid <==> exists x, a :: x in live && Within(live[x], a) && Spans(tb, 0, i, a)
  {
    hide N, InUse, Start, Stop, Pieces, Highest, Used, NonEmpty, Accounts, Links, HasMem, NodesOf, BlockSpan;
    ValidExactly(tb, live, 0, i);
    if exists x, a :: x in live && Within(live[x], a) && Spans(tb, 0, i, a) {
      var x, a :| x in live && Within(live[x], a) && Spans(tb, 0, i, a);
      assert Belongs(tb, live, 0, i, x, a);
    }
  }
}
