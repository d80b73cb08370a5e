/** Adding and removing a token, on values: every piece of a segment changes as the segment record does. */
module MaptToken {
  import opened Basics
  import opened MaptModel
  import opened MaptInv
  import opened MaptUpdates
  import opened MaptGrid
  import opened MaptPieces
  import opened MaptSteps
  import opened MaptDecide
  import opened MaptWalk
  import opened MaptFill
  import opened MaptClear

  const MAX_TOKENS: nat := 2

  datatype TokenOp = AddToken(tok: nat) | RemoveToken(tok: nat)

  /** ummu_update_token on a node; None is its error. */
  function NodeToken(op: TokenOp, n: Node): Option<Node> {
    match op
    case AddToken(t) => if n.valid && n.nonce == 1 then Some(n.(tok1 := t, nonce := MAX_TOKENS)) else None
    case RemoveToken(t) =>
      if n.tok0 == t then Some(n.(tok0 := n.tok1, nonce := 1))
      else if n.tok1 == t then Some(n.(tok1 := n.tok0, nonce := 1))
      else None
  }

  /** The same update of a segment record (ummu_token_update, ummu_remove_tokenval). */
  function SegToken(op: TokenOp, s: Seg): Seg {
    match op
    case AddToken(t) => s.(tok1 := t, count := MAX_TOKENS)
    case RemoveToken(t) =>
      (if s.tok0 == t then s.(tok0 := s.tok1) else if s.tok1 == t then s.(tok1 := s.tok0) else s).(count := 1)
  }

  /** The update fits the segment: an added token is the second, a removed one is there. */
  predicate TokenFits(op: TokenOp, s: Seg) {
    s.check && match op
               case AddToken(_) => s.count == 1
               case RemoveToken(t) => t == s.tok0 || t == s.tok1
  }

  function NewNode(op: TokenOp, n: Node): Node {
    var r := NodeToken(op, n); if r.Some? then r.value else n
  }

  /** The node of a piece and the record agree before and after. */
  lemma TokenAgrees(op: TokenOp, n: Node, s: Seg)
    requires TokenFits(op, s) && AttrOk(n, s) && n.valid
    ensures NodeToken(op, n).Some? && AttrOk(NewNode(op, n), SegToken(op, s))
    ensures var m := NewNode(op, n); var t := SegToken(op, s);
            && m == n.(tok0 := m.tok0, tok1 := m.tok1, nonce := m.nonce)
            && t == s.(tok0 := t.tok0, tok1 := t.tok1, count := t.count)
  {}

  /** First address of the own range of a node. */
  function First(tb: Table, id: nat, i: nat): nat { Start(tb, id, i) + N(tb, id, i).base }

  function TokNode(t0: Table, name: nat, op: TokenOp, g: nat, id: nat, i: nat): Node {
    if Own(t0, id, i, name) && First(t0, id, i) < g then NewNode(op, N(t0, id, i)) else N(t0, id, i)
  }

  /** The pieces of the segment before address `g` are updated; nothing else has changed. */
  ghost predicate TokState(t0: Table, tb: Table, name: nat, op: TokenOp, g: nat) {
    && Structure(tb, None, None) && tb.fb == t0.fb && tb.bitmap == t0.bitmap && tb.pos == t0.pos && tb.up == t0.up
    && forall id, i :: IsNode(t0, id, i) ==> N(tb, id, i) == TokNode(t0, name, op, g, id, i)
  }

  ghost predicate TokBase(t0: Table, live: Live, name: nat, op: TokenOp) {
    Inv(t0, live, None, None) && name in live && TokenFits(op, live[name])
  }

  lemma TokStart(t0: Table, live: Live, name: nat, op: TokenOp)
    requires TokBase(t0, live, name, op)
    ensures TokState(t0, t0, name, op, live[name].lo)
  {
    hide InUse, N, Start, Stop, Structure, Covered, Apart, LiveOk, Highest, NewNode;
    forall id, i | Own(t0, id, i, name) ensures First(t0, id, i) >= live[name].lo {
      assert PieceOk(N(t0, id, i), live[name], Start(t0, id, i), Stop(t0, id, i));
    }
  }

  /** All that the walk reads of a node is as it was. */
  lemma TokRead(t0: Table, tb: Table, live: Live, name: nat, op: TokenOp, g: nat, id: nat, i: nat)
    requires TokBase(t0, live, name, op) && TokState(t0, tb, name, op, g) && IsNode(t0, id, i)
    ensures var m := N(tb, id, i); var n := N(t0, id, i);
            && m == n.(tok0 := m.tok0, tok1 := m.tok1, nonce := m.nonce)
            && (m == n || (Own(t0, id, i, name) && First(t0, id, i) < g && m == NewNode(op, n)))
  {
    hide InUse, N, Start, Stop, Structure, Covered, Apart, LiveOk, Highest, NewNode, First;
    if Own(t0, id, i, name) {
      assert PieceOk(N(t0, id, i), live[name], Start(t0, id, i), Stop(t0, id, i));
      OwnValid(t0, id, i, name);
      TokenAgrees(op, N(t0, id, i), live[name]);
    }
  }

  lemma OwnFirst(t0: Table, live: Live, name: nat, id: nat, i: nat)
    requires PiecesOk(t0, live) && LiveOk(live) && Own(t0, id, i, name)
    ensures name in live && First(t0, id, i) == Max(Start(t0, id, i), live[name].lo) && AttrOk(N(t0, id, i), live[name])
    ensures Start(t0, id, i) + N(t0, id, i).limit + 1 == Min(Stop(t0, id, i), live[name].hi + 1)
    ensures First(t0, id, i) < Min(Stop(t0, id, i), live[name].hi + 1)
  {
    hide InUse, N, Start, Stop;
    assert PieceOk(N(t0, id, i), live[name], Start(t0, id, i), Stop(t0, id, i));
  }

  /** Updating the piece that starts at `g` moves the boundary past its span. */
  lemma TokStep(t0: Table, tb: Table, live: Live, name: nat, op: TokenOp, g: nat, id: nat, i: nat)
    requires TokBase(t0, live, name, op) && TokState(t0, tb, name, op, g) && Own(t0, id, i, name)
    requires First(t0, id, i) == g
    ensures NodeToken(op, N(tb, id, i)).Some? && HasMem(tb, id) && i < |NodesOf(tb, id)|
    ensures TokState(t0, Put(tb, id, i, NewNode(op, N(tb, id, i))), name, op, Min(Stop(t0, id, i), live[name].hi + 1))
  {
    hide InUse, N, Start, Stop, Covered, LiveOk, Highest, First, Shape, Links, Accounts, Used, NonEmpty, HasMem,
         NodesOf,
         Put, Apart, PiecesOk, NodeToken, AttrOk, TokenFits, NewNode, Own;
    OwnFirst(t0, live, name, id, i);
    OwnValid(t0, id, i, name);
    OwnIs(t0, id, i, name);
    TokenAgrees(op, N(t0, id, i), live[name]);
    TokRead(t0, tb, live, name, op, g, id, i);
    assert N(tb, id, i) == N(t0, id, i);
    var n := NewNode(op, N(t0, id, i));
    TokPut(t0, tb, id, i, n);
    var g' := Min(Stop(t0, id, i), live[name].hi + 1);
    forall jd: nat, j: nat | IsNode(t0, jd, j) ensures N(Put(tb, id, i, n), jd, j) == TokNode(t0, name, op, g', jd, j) {
      PutGet(tb, id, i, n);
      if Own(t0, jd, j, name) && !(jd == id && j == i) {
        TokOrder(t0, live, name, g, id, i, jd, j);
      }
    }
    PutGet(tb, id, i, n);
  }

  lemma OwnIs(t0: Table, id: nat, i: nat, name: nat)
    requires Own(t0, id, i, name)
    ensures IsNode(t0, id, i) && InUse(t0.fb, N(t0, id, i)) && N(t0, id, i).seg == name
  {
    hide InUse, N;
  }

  /** No other piece starts in the span. */
  lemma TokOrder(t0: Table, live: Live, name: nat, g: nat, id: nat, i: nat, jd: nat, j: nat)
    requires PiecesOk(t0, live) && Apart(t0) && Own(t0, id, i, name) && Own(t0, jd, j, name) && !(jd == id && j == i)
    requires First(t0, id, i) == g
    requires name in live && LiveOk(live)
    ensures First(t0, jd, j) < g <==> First(t0, jd, j) < Min(Stop(t0, id, i), live[name].hi + 1)
  {
    hide InUse, N, Start, Stop, First, Own, PiecesOk, AttrOk, LiveOk;
    OwnFirst(t0, live, name, id, i);
    OwnFirst(t0, live, name, jd, j);
  }

  lemma TokPut(t0: Table, tb: Table, id: nat, i: nat, n: Node)
    requires Structure(tb, None, None) && IsNode(tb, id, i) && InUse(tb.fb, N(tb, id, i))
    requires n == N(tb, id, i).(tok0 := n.tok0, tok1 := n.tok1, nonce := n.nonce)
    ensures Structure(Put(tb, id, i, n), None, None) && HasMem(tb, id) && i < |NodesOf(tb, id)| && Shape(tb)
  {
    hide N, Shape, Accounts, Used, NonEmpty, Put, LeadsOk, UpsOk, PlacesDiffer;
    assert NodeForm(N(tb, id, i)) && N(tb, id, i).valid && InUse(tb.fb, n);
    FillStructure(tb, id, i, n, None);
    ShapeMem(tb, id, i);
  }

  lemma ShapeMem(tb: Table, id: nat, i: nat)
    requires Shape(tb) && IsNode(tb, id, i)
    ensures HasMem(tb, id) && i < |NodesOf(tb, id)|
  {
    hide HasMem, NodesOf, BlockSpan;
  }

  // ---------------------------------------------------------------- all pieces updated

  lemma TokDone(t0: Table, tb: Table, live: Live, name: nat, op: TokenOp)
    requires TokBase(t0, live, name, op) && TokState(t0, tb, name, op, live[name].hi + 1)
    ensures Inv(tb, live[name := SegToken(op, live[name])], None, None)
  {
    hide InUse, N, Start, Stop, Structure, Highest, Pieces, SegToken, TokenFits;
    TokPieces(t0, tb, live, name, op);
    TokCovered(t0, tb, live, name, op);
    TokRest(t0, tb, live, name, op);
    hide PiecesOk, Covered, Apart, LiveOk;
    assert Pieces(tb,
                  live[name := SegToken(op, live[name])]) by { PiecesAre(tb, live[name := SegToken(op, live[name])]); }
  }

  lemma PiecesAre(tb: Table, live: Live)
    requires LiveOk(live) && PiecesOk(tb, live) && Covered(tb, live) && Apart(tb)
    ensures Pieces(tb, live)
  {
    hide LiveOk, PiecesOk, Covered, Apart;
  }

  lemma TokOwn(t0: Table, tb: Table, live: Live, name: nat, op: TokenOp, g: nat, id: nat, i: nat, x: nat)
    requires TokBase(t0, live, name, op) && TokState(t0, tb, name, op, g)
    ensures Own(tb, id, i, x) <==> Own(t0, id, i, x)
    ensures Start(tb, id, i) == Start(t0, id, i) && Stop(tb, id, i) == Stop(t0, id, i) && Lv(tb, id) == Lv(t0, id)
    ensures Pfx(tb, id) == Pfx(t0, id)
  {
    hide N, Structure, Inv, TokNode, EntryBase;
    if IsNode(t0, id, i) {
      TokRead(t0, tb, live, name, op, g, id, i);
    }
    hide TokBase;
  }

  lemma TokPieces(t0: Table, tb: Table, live: Live, name: nat, op: TokenOp)
    requires TokBase(t0, live, name, op) && TokState(t0, tb, name, op, live[name].hi + 1)
    ensures PiecesOk(tb, live[name := SegToken(op, live[name])])
  {
    hide InUse, N, Start, Stop, Structure, Highest, Covered, Apart, LiveOk, TokenFits, SegToken, NewNode, First;
    var live' := live[name := SegToken(op, live[name])];
    forall id, i | IsNode(tb, id, i) && InUse(tb.fb, N(tb, id, i))
      ensures N(tb, id, i).seg in live'
      ensures PieceOk(N(tb, id, i), live'[N(tb, id, i).seg], Start(tb, id, i), Stop(tb, id, i))
    {
      TokPiece(t0, tb, live, name, op, id, i);
    }
  }

  lemma TokPiece(t0: Table, tb: Table, live: Live, name: nat, op: TokenOp, id: nat, i: nat)
    requires TokBase(t0, live, name, op) && TokState(t0, tb, name, op, live[name].hi + 1) && IsNode(tb, id, i)
    requires InUse(tb.fb, N(tb, id, i))
    ensures var live' := live[name := SegToken(op, live[name])];
            && N(tb, id, i).seg in live'
            && PieceOk(N(tb, id, i), live'[N(tb, id, i).seg], Start(tb, id, i), Stop(tb, id, i))
  {
    hide InUse, N, Start, Stop, Structure, Highest, Covered, Apart, LiveOk, TokenFits, SegToken, NewNode;
    var x := N(tb, id, i).seg;
    assert Own(tb, id, i, x);
    TokOwn(t0, tb, live, name, op, live[name].hi + 1, id, i, x);
    TokRead(t0, tb, live, name, op, live[name].hi + 1, id, i);
    assert PieceOk(N(t0, id, i), live[x], Start(t0, id, i), Stop(t0, id, i));
    if x == name {
      OwnValid(t0, id, i, name);
      OwnFirst(t0, live, name, id, i);
      TokenAgrees(op, N(t0, id, i), live[name]);
    }
  }

  lemma TokCovered(t0: Table, tb: Table, live: Live, name: nat, op: TokenOp)
    requires TokBase(t0, live, name, op) && TokState(t0, tb, name, op, live[name].hi + 1)
    ensures Covered(tb, live[name := SegToken(op, live[name])])
  {
    hide InUse, N, Start, Stop, Structure, Highest, PiecesOk, Apart, LiveOk, TokenFits, TokState, Own;
    SegSame(op, live[name]);
    hide SegToken;
    var live' := live[name := SegToken(op, live[name])];
    forall x, a | x in live' && Within(live'[x], a) ensures HeldAt(tb, x, a) {
      assert x in live && Within(live[x], a);
      var id, i :| Holds(t0, id, i, x, a);
      TokOwn(t0, tb, live, name, op, live[name].hi + 1, id, i, x);
      assert Holds(tb, id, i, x, a);
    }
  }

  lemma SegSame(op: TokenOp, s: Seg)
    ensures SegToken(op, s).lo == s.lo && SegToken(op, s).hi == s.hi
  {}

  lemma TokRest(t0: Table, tb: Table, live: Live, name: nat, op: TokenOp)
    requires TokBase(t0, live, name, op) && TokState(t0, tb, name, op, live[name].hi + 1)
    ensures var live' := live[name := SegToken(op, live[name])]; LiveOk(live') && Apart(tb) && Highest(tb, live')
  {
    hide InUse, N, Start, Stop, Structure, PiecesOk, Covered, TokenFits, Own, BlockSpan, TokNode;
    assert tb.pos == t0.pos;
    hide TokState;
    SegSame(op, live[name]);
    hide SegToken;
    forall x, id, i ensures Own(tb, id, i, x) <==> Own(t0, id, i, x) {
      TokOwn(t0, tb, live, name, op, live[name].hi + 1, id, i, x);
    }
    forall id, i ensures Start(tb, id, i) == Start(t0, id, i) && Stop(tb, id, i) == Stop(t0, id, i) {
      TokOwn(t0, tb, live, name, op, live[name].hi + 1, id, i, 0);
    }
    hide TokBase;
    var live' := live[name := SegToken(op, live[name])];
    forall x | x in live' ensures Low(tb, x, live'[x].lo, live'[x].hi) {
      assert Low(t0, x, live[x].lo, live[x].hi);
    }
  }

  // ---------------------------------------------------------------- the walk

  ghost predicate TokAt(t0: Table, tb: Table, live: Live, name: nat, op: TokenOp, id: nat, i: nat, lo: nat, hi: nat) {
    && TokBase(t0, live, name, op) && IsNode(t0, id, i)
    && InSpan(live[name], Start(t0, id, i), Span(Lv(t0, id)), lo, hi)
    && AboveClear(t0, name, Lv(t0, id), Pfx(t0, id)) && TokState(t0, tb, name, op, Start(t0, id, i) + lo)
  }

  ghost predicate TokBlock(t0: Table, tb: Table, live: Live, name: nat, op: TokenOp, level: nat,
                           pre: Option<(nat, nat)>, lo: nat, hi: nat) {
    var id := Lead(t0, pre);
    && TokBase(t0, live, name, op) && LeadOk(t0, pre) && id in t0.bitmap && Lv(t0, id) == level
    && InBlock(live[name], level, Pfx(t0, id), lo, hi) && AboveClear(t0, name, level, Pfx(t0, id))
    && TokState(t0, tb, name, op, Pfx(t0, id) + lo)
  }

  predicate SameButTokens(m: Node, n: Node) {
    m == n.(tok0 := m.tok0, tok1 := m.tok1, nonce := m.nonce)
  }

  /** At every node: it is valid, and it holds the segment exactly if its own range is the one expected;
      otherwise it leads on. */
  lemma TokCases(t0: Table, tb: Table, live: Live, name: nat, op: TokenOp, id: nat, i: nat, lo: nat, hi: nat)
    requires TokAt(t0, tb, live, name, op, id, i, lo, hi)
    ensures var n := N(tb, id, i);
            && n.valid && SameButTokens(n, N(t0, id, i))
            && (Own(t0, id, i, name) <==> InUse(t0.fb, n) && n.base == lo && n.limit == hi)
            && (Own(t0, id, i, name) || Leading(n)) && (n.base == lo && !t0.fb ==> InUse(t0.fb, n))
  {
    hide N, Start, Stop, Structure, Highest, Covered, Apart, LiveOk, TokenFits, NewNode, AboveClear, PieceOk, Pfx, Lv,
         Span,
         First, TokState, PiecesOk, Own, InUse;
    TokRead(t0, tb, live, name, op, Start(t0, id, i) + lo, id, i);
    TokHolds(t0, live, name, op, id, i, lo, hi, Start(t0, id, i) + lo);
    TokMatch(t0, live, name, op, id, i, lo, hi);
    SameUse(t0.fb, N(tb, id, i), N(t0, id, i));
  }

  lemma SameUse(fb: bool, m: Node, n: Node)
    requires SameButTokens(m, n)
    ensures InUse(fb, m) == InUse(fb, n) && Leading(m) == Leading(n)
  {}

  lemma TokHolds(t0: Table, live: Live, name: nat, op: TokenOp, id: nat, i: nat, lo: nat, hi: nat, a: nat)
    requires a == Start(t0, id, i) + lo && TokBase(t0, live, name, op) && IsNode(t0, id, i)
    requires InSpan(live[name], Start(t0, id, i), Span(Lv(t0, id)), lo, hi)
    requires AboveClear(t0, name, Lv(t0, id), Pfx(t0, id))
    ensures N(t0, id, i).valid && (Own(t0, id, i, name) || Leading(N(t0, id, i)))
    ensures Own(t0, id, i, name) || (exists jd, j :: Holds(t0, jd, j, name, a) && Lv(t0, jd) > Lv(t0, id))
    ensures Spans(t0, id, i, a)
  {
    hide N, Start, Structure, Highest, Covered, Apart, PiecesOk, TokenFits, AboveClear, PieceOk, Pfx, Lv, Span, Own;
    StopIs(t0, id, i);
    HolderAt(t0, live, name, a, id, i);
  }

  lemma TokMatch(t0: Table, live: Live, name: nat, op: TokenOp, id: nat, i: nat, lo: nat, hi: nat)
    requires TokBase(t0, live, name, op) && IsNode(t0, id, i)
    requires InSpan(live[name], Start(t0, id, i), Span(Lv(t0, id)), lo, hi)
    requires N(t0, id, i).valid
    ensures Own(t0, id, i, name) <==> InUse(t0.fb, N(t0, id, i)) && N(t0, id, i).base == lo && N(t0, id, i).limit == hi
    ensures N(t0, id, i).base == lo && !t0.fb ==> InUse(t0.fb, N(t0, id, i))
    ensures Own(t0, id, i, name) ==>
              && First(t0, id, i) == Start(t0, id, i) + lo
              && Start(t0, id, i) + hi + 1 == Min(Stop(t0, id, i), live[name].hi + 1)
  {
    hide N, Start, Structure, Highest, Covered, Apart, TokenFits, Pfx, Lv, Span;
    var n, x := N(t0, id, i), N(t0, id, i).seg;
    StopIs(t0, id, i);
    TokAligned(t0, live, name, id, i, lo);
    if InUse(t0.fb, n) {
      assert PieceOk(n, live[x], Start(t0, id, i), Stop(t0, id, i));
      assert x != name ==> Disjoint(live[x], live[name]);
    }
  }

  lemma TokAligned(t0: Table, live: Live, name: nat, id: nat, i: nat, lo: nat)
    requires Inv(t0, live, None, None) && name in live && IsNode(t0, id, i)
    requires Start(t0, id, i) + lo == Max(Start(t0, id, i), live[name].lo)
    ensures lo % PAGE == 0
  {
    hide N, Start, Stop, Highest, Covered, Apart, PiecesOk, Links, Used, NonEmpty, Accounts, Pfx, Lv, Shape;
    StopAligned(t0, id, i);
    assert live[name].lo % PAGE == 0;
    hide LiveOk;
    DiffAligned(Start(t0, id, i), lo);
  }

  lemma DiffAligned(a: nat, b: nat)
    requires a % PAGE == 0 && (a + b) % PAGE == 0
    ensures b % PAGE == 0
  {}

  lemma LeadFacts(tb: Table, id: nat, i: nat)
    requires Shape(tb) && Links(tb) && IsNode(tb, id, i) && Leading(N(tb, id, i))
    ensures var c := Next(N(tb, id, i));
            c in tb.bitmap && Lv(tb, id) < 3 && Lv(tb, c) == Lv(tb, id) + 1 && Pfx(tb, c) == Start(tb, id, i)
  {
    hide N, Start, Shape, UpsOk, PlacesDiffer, FormsOk, Next, BlkOf, SubOf;
    assert LeadsTo(tb, id, i, Next(N(tb, id, i)));
  }

  /** The token of this piece is updated and the walk moves on. */
  lemma TokHere(t0: Table, tb: Table, live: Live, name: nat, op: TokenOp, id: nat, i: nat, lo: nat, hi: nat)
    requires TokAt(t0, tb, live, name, op, id, i, lo, hi) && Own(t0, id, i, name)
    ensures NodeToken(op, N(tb, id, i)).Some? && HasMem(tb, id) && i < |NodesOf(tb, id)|
    ensures TokState(t0, Put(tb, id, i, NewNode(op, N(tb, id, i))), name, op, Start(t0, id, i) + hi + 1)
  {
    hide N, Start, Stop, Inv, TokenFits, NewNode, NodeToken, AboveClear, Pfx, Lv, Span, First, TokState, Own, InUse,
         Put,
         HasMem, NodesOf;
    OwnValid(t0, id, i, name);
    TokMatch(t0, live, name, op, id, i, lo, hi);
    TokStep(t0, tb, live, name, op, Start(t0, id, i) + lo, id, i);
  }

  lemma TokDown(t0: Table, tb: Table, live: Live, name: nat, op: TokenOp, level: nat, id: nat, i: nat, lo: nat, hi: nat)
    requires TokAt(t0, tb, live, name, op, id, i, lo, hi) && !Own(t0, id, i, name) && Lv(t0, id) == level
    ensures TokBlock(t0, tb, live, name, op, level + 1, Some((id, i)), lo, hi) && level < 3
    ensures Pfx(t0, Lead(t0, Some((id, i)))) == Start(t0, id, i) && Lead(tb, Some((id, i))) == Lead(t0, Some((id, i)))
  {
    hide N, Start, Inv, TokenFits, AboveClear, Pfx, Span, TokState, Own, InUse, Next, Shape, Links, Structure,
         Accounts, Lv,
         First, NewNode;
    TokHolds(t0, live, name, op, id, i, lo, hi, Start(t0, id, i) + lo);
    TokRead(t0, tb, live, name, op, Start(t0, id, i) + lo, id, i);
    InvShape(t0, live, None, None);
    LeadFacts(t0, id, i);
    AboveChild(t0, name, id, i);
    ChildRange(live[name], level, Start(t0, id, i), lo, hi);
    NextSame(N(tb, id, i), N(t0, id, i));
  }

  lemma TokWhole(t0: Table, tb: Table, live: Live, name: nat, op: TokenOp, id: nat, i: nat, lo: nat, hi: nat)
    requires TokAt(t0, tb, live, name, op, id, i, lo, hi) && Sides(Span(Lv(t0, id)), lo, hi) == 0
    ensures Own(t0, id, i, name)
  {
    hide N, Start, Inv, TokenFits, AboveClear, Pfx, Span, Lv, TokState, Own, InUse, Shape, Links, Low, Structure;
    TokHolds(t0, live, name, op, id, i, lo, hi, Start(t0, id, i) + lo);
    InvShape(t0, live, None, None);
    InvLow(t0, live, name);
    WholeNode(live[name], Start(t0, id, i), Span(Lv(t0, id)), lo, hi);
    StopIs(t0, id, i);
    if !Own(t0, id, i, name) {
      var jd, j :| Holds(t0, jd, j, name, Start(t0, id, i) + lo) && Lv(t0, jd) > Lv(t0, id);
      NotBelow(t0, name, live[name], id, i, jd, j, Start(t0, id, i) + lo);
      assert false;
    }
  }

  lemma InvLow(t0: Table, live: Live, name: nat)
    requires Inv(t0, live, None, None) && name in live
    ensures Low(t0, name, live[name].lo, live[name].hi)
  {
    hide Low, Structure, Pieces;
  }

  ghost predicate TokEntry(t0: Table, tb: Table, live: Live, name: nat, op: TokenOp, level: nat, id: nat, i: nat,
                           lo: nat, hi: nat) {
    && TokBase(t0, live, name, op) && id in t0.bitmap && Lv(t0, id) == level
    && InBlock(live[name], level, Pfx(t0, id), lo, hi) && AboveClear(t0, name, level, Pfx(t0, id))
    && IndexAt(level, lo) <= i <= IndexAt(level, hi) && TokState(t0, tb, name, op, Reach(level, Pfx(t0, id), lo, hi, i))
  }

  lemma TokEntryAt(t0: Table, tb: Table, live: Live, name: nat, op: TokenOp, level: nat, id: nat, i: nat, lo: nat,
                   hi: nat)
    requires TokEntry(t0, tb, live, name, op, level, id, i, lo, hi)
    ensures TokAt(t0, tb, live, name, op, id, i, NodeBase(level, lo, i), NodeLimit(level, hi, i))
    ensures Start(t0, id, i) + NodeLimit(level, hi, i) + 1 == Reach(level, Pfx(t0, id), lo, hi, i + 1)
    ensures IndexAt(level, lo) < i < IndexAt(level, hi) ==>
              Sides(Span(level), NodeBase(level, lo, i), NodeLimit(level, hi, i)) == 0
  {
    hide TokBase, TokState, EntryBase, IndexAt, OffsetAt, Span, BlockSpan, Reach, AboveClear;
    assert name in live by { TokBaseName(t0, live, name, op); }
    var p := Pfx(t0, id);
    NodeRange(live[name], level, p, lo, hi, i);
    ReachNode(live[name], level, p, lo, hi, i);
    WholeNode(live[name], EntryBase(level, p, i), Span(level), NodeBase(level, lo, i), NodeLimit(level, hi, i));
  }

  lemma TokBaseName(t0: Table, live: Live, name: nat, op: TokenOp)
    requires TokBase(t0, live, name, op)
    ensures name in live
  {}

  lemma FbIs(t0: Table, tb: Table, live: Live, name: nat, op: TokenOp, id: nat, i: nat, lo: nat, hi: nat)
    requires TokAt(t0, tb, live, name, op, id, i, lo, hi)
    ensures tb.fb == t0.fb
  {
    hide TokBase, AboveClear, Structure, N, TokNode;
  }

  lemma TokFirst(t0: Table, tb: Table, live: Live, name: nat, op: TokenOp, level: nat, pre: Option<(nat, nat)>,
                 lo: nat, hi: nat)
    requires TokBlock(t0, tb, live, name, op, level, pre, lo, hi)
    ensures TokEntry(t0, tb, live, name, op, level, Lead(t0, pre), IndexAt(level, lo), lo, hi)
    ensures IndexAt(level, lo) <= IndexAt(level, hi) && level < LEVELS
  {
    hide TokBase, AboveClear, TokState, BlockSpan, IndexAt, Pfx, Lead;
    assert name in live by { TokBaseName(t0, live, name, op); }
    IndexOrder(level, lo, hi);
  }

  lemma TokEntryIs(t0: Table, tb: Table, live: Live, name: nat, op: TokenOp, level: nat, id: nat, i: nat, lo: nat,
                   hi: nat)
    requires TokEntry(t0, tb, live, name, op, level, id, i, lo, hi)
    ensures Lv(t0, id) == level && level < LEVELS
  {
    hide TokBase, AboveClear, TokState, BlockSpan, IndexAt;
    assert name in live by { TokBaseName(t0, live, name, op); }
  }

  lemma TokNext(t0: Table, tb: Table, tb': Table, live: Live, name: nat, op: TokenOp, level: nat, id: nat, i: nat,
                lo: nat, hi: nat)
    requires TokEntry(t0, tb, live, name, op, level, id, i, lo, hi)
    requires TokState(t0, tb', name, op, Start(t0, id, i) + NodeLimit(level, hi, i) + 1)
    ensures i < IndexAt(level, hi) ==> TokEntry(t0, tb', live, name, op, level, id, i + 1, lo, hi)
    ensures i == IndexAt(level, hi) ==> TokState(t0, tb', name, op, Pfx(t0, id) + hi + 1)
  {
    hide TokBase, AboveClear, TokState, BlockSpan, IndexAt, TokAt, Start, NodeLimit, NodeBase;
    TokEntryAt(t0, tb, live, name, op, level, id, i, lo, hi);
  }
}
