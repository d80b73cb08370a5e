/** Filling, on values: what holds between the steps of storing a new segment. */
module MaptFill {
  import opened Arith
  import opened Basics
  import opened MaptModel
  import opened MaptInv
  import opened MaptUpdates
  import opened MaptBlocks
  import opened MaptGrid
  import opened MaptPieces
  import opened MaptSteps
  import opened MaptDecide
  import opened MaptExt
  import opened MaptWalk

  /** The new segment `s` is stored up to `f`; otherwise the table is the earlier one, `t0`. */
  ghost predicate FillState(tb: Table, live: Live, s: Seg, f: nat, bare: Option<nat>, t0: Table) {
    && Fits(live, s.lo, s) && Inv(tb, Part(live, s.lo, s, s.lo, f), None, bare)
    && (f <= s.hi ==> SpansBefore(tb, s.lo, f)) && Low(tb, s.lo, s.lo, s.hi)
    && Base(t0, s.lo) && Ext(t0, tb, s.lo)
  }

  /** The level block is not inside the new segment, so the segment belongs in it. */
  ghost predicate Shared(tb: Table, s: Seg, id: nat) {
    id != 0 ==> !(s.lo <= Pfx(tb, id) && Pfx(tb, id) + BlockSpan(Lv(tb, id)) - 1 <= s.hi)
  }

  /** The walk is at node `(id, i)`, with `[lo, hi]` the part of `s` in its span. */
  ghost predicate AtNode(tb: Table, s: Seg, id: nat, i: nat, lo: nat, hi: nat) {
    IsNode(tb, id, i) && InSpan(s, Start(tb, id, i), Span(Lv(tb, id)), lo, hi) && Shared(tb, s, id)
  }

  /** Storing the part of the segment in the span of a node that is free. */
  lemma FillHere(tb: Table, live: Live, s: Seg, id: nat, i: nat, lo: nat, hi: nat, bare: Option<nat>, t0: Table)
    requires FillState(tb, live, s, Start(tb, id, i) + lo, bare, t0) && AtNode(tb, s, id, i, lo, hi)
    requires bare == None || bare == Some(id)
    requires !InUse(tb.fb, N(tb, id, i))
    ensures FillState(Put(tb, id, i, Filled(N(tb, id, i), s.lo, s, lo, hi, !N(tb, id, i).valid)), live, s,
                      Start(tb, id, i) + hi + 1, None, t0)
  {
    hide InUse, N, Start, Inv, Low, SpansBefore, Ext, Base, Part, Put, Filled, BlockSpan, Fits, EntryBase;
    var f := Start(tb, id, i) + lo;
    FillReady(tb, live, s, id, i, lo, hi, bare, t0);
    hide FillState, AtNode, Shared;
    StepFill(tb, live, s.lo, s, id, i, f, bare);
    FillAligned(tb, live, s.lo, s, id, i, f, bare);
    StoreExt(t0, tb, s.lo, s, id, i, f);
    hide CanFill;
    FillReached(Put(tb, id, i, Stored(tb, s.lo, s, id, i, f)), live, s, Start(tb, id, i) + hi + 1, t0);
  }

  lemma FillReady(tb: Table, live: Live, s: Seg, id: nat, i: nat, lo: nat, hi: nat, bare: Option<nat>, t0: Table)
    requires FillState(tb, live, s, Start(tb, id, i) + lo, bare, t0) && AtNode(tb, s, id, i, lo, hi)
    requires bare == None || bare == Some(id)
    ensures CanFill(tb, live, s.lo, s, id, i, Start(tb, id, i) + lo, bare)
    ensures Start(tb, id, i) + hi + 1 == Min(Stop(tb, id, i), s.hi + 1) && Start(tb, id, i) + lo <= s.hi
    ensures Start(tb, id, i) + lo < Stop(tb, id, i)
    ensures Stored(tb, s.lo, s, id, i,
                   Start(tb, id, i) + lo) == Filled(N(tb, id, i), s.lo, s, lo, hi, !N(tb, id, i).valid)
    ensures Shape(tb) && IsNode(tb, id, i) && Base(t0, s.lo) && Ext(t0, tb, s.lo) && Fits(live, s.lo, s)
  {
    hide InUse, N, Start, Inv, Low, SpansBefore, Ext, Base, Part, Filled, BlockSpan, Fits, Shape, Links, Accounts,
         Structure, Span, Lv, Pfx;
    FitsOk(live, s);
    InvShape(tb, Part(live, s.lo, s, s.lo, Start(tb, id, i) + lo), None, bare);
  }

  lemma FillReached(tb: Table, live: Live, s: Seg, f: nat, t0: Table)
    requires Fits(live, s.lo, s) && Inv(tb, Part(live, s.lo, s, s.lo, f), None, None) && Low(tb, s.lo, s.lo, s.hi)
    requires f <= s.hi ==> SpansBefore(tb, s.lo, f)
    requires Base(t0, s.lo) && Ext(t0, tb, s.lo)
    ensures FillState(tb, live, s, f, None, t0)
  {
    hide Fits, Inv, Low, SpansBefore, Base, Ext, Part;
  }

  lemma FitsOk(live: Live, s: Seg)
    requires Fits(live, s.lo, s)
    ensures s.lo <= s.hi
  {}

  lemma InvShape(tb: Table, live: Live, hole: Option<(nat, nat)>, bare: Option<nat>)
    requires Inv(tb, live, hole, bare)
    ensures Shape(tb) && Links(tb) && Accounts(tb) && Structure(tb, hole, bare)
  {}

  /** A valid node on the way is shared with another segment: it is not inside `s`, and a next level
      exists or can be added. */
  lemma ValidOnWay(tb: Table, live: Live, s: Seg, id: nat, i: nat, lo: nat, hi: nat, t0: Table)
    requires FillState(tb, live, s, Start(tb, id, i) + lo, None, t0) && AtNode(tb, s, id, i, lo, hi)
    requires N(tb, id, i).valid
    ensures Lv(tb, id) < 3 && Sides(Span(Lv(tb, id)), lo, hi) > 0
    ensures !(s.lo <= Start(tb, id, i) && Stop(tb, id, i) - 1 <= s.hi)
    ensures !InUse(tb.fb, N(tb, id, i)) ==> Leading(N(tb, id, i))
    ensures N(tb, id, i).seg != s.lo || !InUse(tb.fb, N(tb, id, i))
  {
    hide InUse, N, Start, Low, Ext, Base, Part, BlockSpan, Fits, Pieces, Highest, Shape, Links, Accounts, NonEmpty;
    var f := Start(tb, id, i) + lo;
    FitsOk(live, s);
    ValidShared(tb, live, s.lo, s, id, i, f);
    WholeNode(s, Start(tb, id, i), Span(Lv(tb, id)), lo, hi);
    assert Own(tb, id, i, s.lo) ==> Stop(tb, id, i) <= f;
  }

  /** Descending to the next level, with `[lo, hi]` in its terms. */
  lemma FillDown(tb: Table, s: Seg, id: nat, i: nat, lo: nat, hi: nat)
    requires Shape(tb) && Links(tb) && AtNode(tb, s, id, i, lo, hi) && Leading(N(tb, id, i))
    requires !(s.lo <= Start(tb, id, i) && Stop(tb, id, i) - 1 <= s.hi)
    ensures var c := Next(N(tb, id, i)); var l := Lv(tb, id) + 1;
            && c in tb.bitmap && c != 0 && Lv(tb, c) == l && l < LEVELS && Pfx(tb, c) == Start(tb, id, i)
            && InBlock(s, l, Pfx(tb, c), lo, hi) && Shared(tb, s, c) && BlockSpan(l) == Span(l - 1)
            && c in tb.up && tb.up[c] == (id, i)
  {
    hide N, Start, BlockSpan, UpsOk, PlacesDiffer, FormsOk, Next, HasMem, NodesOf, BlkOf, SubOf;
    var c := Next(N(tb, id, i));
    assert LeadsTo(tb, id, i, c);
    ChildRange(s, Lv(tb, id), Start(tb, id, i), lo, hi);
    NextSpan(Lv(tb, id));
  }

  /** A next level has been added to a node in use. */
  lemma FillAdd(tb: Table, live: Live, s: Seg, id: nat, i: nat, lo: nat, hi: nat, c: nat, t0: Table)
    requires FillState(tb, live, s, Start(tb, id, i) + lo, None, t0) && AtNode(tb, s, id, i, lo, hi)
    requires CanAdd(tb, id, i, c)
    ensures var tb' := AddChild(tb, id, i, c);
            && FillState(tb', live, s, Start(tb, id, i) + lo, Some(c), t0) && AtNode(tb', s, id, i, lo, hi)
            && Leading(N(tb', id, i)) && Next(N(tb', id, i)) == c && (forall j :: N(tb', c, j) == ZERO)
            && Start(tb', id, i) == Start(tb, id, i) && Lv(tb', id) == Lv(tb, id) && Pfx(tb', id) == Pfx(tb, id)
            && Places(tb, tb')
  {
    hide InUse, N, EntryBase, Inv, Low, SpansBefore, Ext, Base, Part, BlockSpan, Fits, AddChild, Keeps, HasMem, NodesOf,
         Accounts, BlkOf, SubOf, Next, LeadsTo;
    StepAdd(tb, Part(live, s.lo, s, s.lo, Start(tb, id, i) + lo), id, i, c);
    AddKeeps(tb, id, i, c);
    AddGet(tb, id, i, c);
    AttachNext(N(tb, id, i), id, c);
    AddExt(t0, tb, s.lo, id, i, c);
    var tb' := AddChild(tb, id, i, c);
    FewerSpans(tb, tb', s.lo, Start(tb, id, i) + lo);
    FewerLow(tb, tb', s.lo, s.lo, s.hi);
    AddPlacesKept(tb, id, i, c);
  }

  lemma AddPlacesKept(tb: Table, id: nat, i: nat, c: nat)
    requires CanAdd(tb, id, i, c)
    ensures Places(tb, AddChild(tb, id, i, c))
  {
    hide InUse, N, EntryBase, BlockSpan, AddChild, HasMem, NodesOf, Accounts, BlkOf, SubOf, Next, LeadsTo, Attach;
    AddGet(tb, id, i, c);
  }

  lemma FewerSpans(tb: Table, tb': Table, name: nat, f: nat)
    requires Keeps(tb', tb)
    ensures SpansBefore(tb, name, f) ==> SpansBefore(tb', name, f)
  {
    hide InUse, N, EntryBase, Start, Stop, Own;
    forall jd, j | Own(tb', jd, j, name) ensures Own(tb, jd, j, name) && Stop(tb', jd, j) == Stop(tb, jd, j) {
      KeptOwn(tb', tb, jd, j, name);
    }
    hide Keeps;
  }

  lemma FewerLow(tb: Table, tb': Table, name: nat, lo: nat, hi: nat)
    requires Keeps(tb', tb) && Low(tb, name, lo, hi)
    ensures Low(tb', name, lo, hi)
  {
    hide InUse, N, EntryBase, Start, Stop, Own, BlockSpan, Lv, Pfx;
    forall jd, j | Own(tb', jd, j, name)
      ensures Own(tb, jd, j, name) && Lv(tb', jd) == Lv(tb, jd) && Pfx(tb', jd) == Pfx(tb, jd)
    {
      KeptOwn(tb', tb, jd, j, name);
    }
    hide Keeps;
  }

  lemma PlacesTrans(t0: Table, t1: Table, t2: Table)
    requires Places(t0, t1) && Places(t1, t2)
    ensures Places(t0, t2)
  {
    forall id | id in t0.bitmap ensures PlaceExt(t0, t2, id) {
      assert PlaceExt(t0, t1, id);
      assert PlaceExt(t1, t2, id);
    }
  }

  // ---------------------------------------------------------------- contracts of the walk

  /** The level block that a node, or for the root no node, leads to. */
  function Lead(tb: Table, pre: Option<(nat, nat)>): nat {
    if pre.None? then 0 else Next(N(tb, pre.value.0, pre.value.1))
  }

  predicate LeadOk(tb: Table, pre: Option<(nat, nat)>) {
    pre.Some? ==> IsNode(tb, pre.value.0, pre.value.1) && Leading(N(tb, pre.value.0, pre.value.1))
  }

  ghost predicate HeadPre(tb: Table, live: Live, s: Seg, level: nat, id: nat, i: nat, lo: nat, hi: nat,
                          bare: Option<nat>, t0: Table,
                          lvl: nat, flag: bool)
  {
    && FillState(tb, live, s, Start(tb, id, i) + lo, bare, t0) && AtNode(tb, s, id, i, lo, hi) && Lv(tb, id) == level
    && (bare == None || (bare == Some(id) && N(tb, id, i) == ZERO))
    && SplitOk(s, lvl)
    && (level < 3 && Sides(Span(level), lo, hi) > 0 ==> WalkIn(s, lvl, flag, level + 1, Start(tb, id, i), Span(level)))
  }

  ghost predicate BlockPre(tb: Table, live: Live, s: Seg, level: nat, pre: Option<(nat, nat)>, lo: nat, hi: nat,
                           bare: Option<nat>, t0: Table,
                           lvl: nat, flag: bool)
  {
    var id := Lead(tb, pre);
    && LeadOk(tb, pre) && id in tb.bitmap && Lv(tb, id) == level && InBlock(s, level, Pfx(tb, id), lo, hi)
    && Shared(tb, s, id)
    && FillState(tb, live, s, Pfx(tb, id) + lo, bare, t0)
    && (bare == None || (bare == Some(id) && forall j :: N(tb, id, j) == ZERO))
    && SplitOk(s, lvl) && WalkIn(s, lvl, flag, level, Pfx(tb, id), BlockSpan(level))
  }

  /** Either all of `[f, end)` is stored, or the part before `stop`, where node `st` of another segment
      needed a next level and none could be had. */
  ghost predicate FillPost(tb: Table, tb': Table, live: Live, s: Seg, f: nat, end: nat, t0: Table, ok: bool,
                           stop: nat, st: (nat, nat)) {
    && Places(tb, tb')
    && (ok ==> FillState(tb', live, s, end, None, t0))
    && (!ok ==> f <= stop < end && FillState(tb', live, s, stop, None, t0) && StuckAt(tb', s.lo, st, stop, 0))
  }

  lemma HeadInUse(tb: Table, live: Live, s: Seg, level: nat, id: nat, i: nat, lo: nat, hi: nat, bare: Option<nat>,
                  t0: Table, lvl: nat, flag: bool)
    requires HeadPre(tb, live, s, level, id, i, lo, hi, bare, t0, lvl, flag) && N(tb, id, i).valid
    ensures bare == None && level < 3 && Sides(Span(level), lo, hi) > 0
    ensures WalkIn(s, lvl, flag, level + 1, Start(tb, id, i), Span(level))
    ensures !InUse(tb.fb, N(tb, id, i)) ==> Leading(N(tb, id, i))
    ensures HasMem(tb, id) && i < |NodesOf(tb, id)|
    ensures Start(tb, id, i) % Span(level) == 0 && s.lo <= s.hi && IsNode(tb, id, i)
  {
    hide Start, InUse, Fits, Part, Pieces, Highest, Links, Used, NonEmpty, Accounts, SpansBefore, Low, Base, Ext,
         BlockSpan,
         N, HasMem, NodesOf;
    ValidOnWay(tb, live, s, id, i, lo, hi, t0);
    FitsOk(live, s);
    StartAligned(tb, id, i);
  }

  lemma StartAligned(tb: Table, id: nat, i: nat)
    requires Shape(tb) && IsNode(tb, id, i)
    ensures Start(tb, id, i) % Span(Lv(tb, id)) == 0
  {
    hide BlockSpan, Span, HasMem, NodesOf;
    BlockOfSpans(Lv(tb, id), Pfx(tb, id));
    PlusMultiple(Pfx(tb, id), Span(Lv(tb, id)), i);
  }

  /** Where the walk goes down. */
  lemma HeadToBlock(tb: Table, live: Live, s: Seg, level: nat, id: nat, i: nat, lo: nat, hi: nat, t0: Table, lvl: nat,
                    flag: bool)
    requires HeadPre(tb, live, s, level, id, i, lo, hi, None, t0, lvl, flag) && Leading(N(tb, id, i))
    ensures BlockPre(tb, live, s, level + 1, Some((id, i)), lo, hi, None, t0, lvl, flag)
    ensures Pfx(tb, Lead(tb, Some((id, i)))) == Start(tb, id, i) && BlockSpan(level + 1) == Span(level)
  {
    hide Start, InUse, Fits, Part, Pieces, Highest, Links, Used, NonEmpty, Accounts, SpansBefore, Low, Base, Ext,
         BlockSpan,
         N, Shape;
    ValidOnWay(tb, live, s, id, i, lo, hi, t0);
    FillDown(tb, s, id, i, lo, hi);
    hide Inv;
  }

  lemma HeadToNewBlock(tb: Table, live: Live, s: Seg, level: nat, id: nat, i: nat, lo: nat, hi: nat, c: nat,
                       t0: Table, lvl: nat, flag: bool)
    requires HeadPre(tb, live, s, level, id, i, lo, hi, None, t0, lvl, flag) && CanAdd(tb, id, i, c)
    ensures var tb' := AddChild(tb, id, i, c);
            && BlockPre(tb', live, s, level + 1, Some((id, i)), lo, hi, Some(c), t0, lvl, flag) && Places(tb, tb')
            && Pfx(tb', Lead(tb', Some((id, i)))) == Start(tb, id, i) && BlockSpan(level + 1) == Span(level)
  {
    hide Start, InUse, Fits, Part, Pieces, Highest, Links, Used, NonEmpty, Accounts, SpansBefore, Low, Base, Ext,
         BlockSpan,
         N, Shape, AddChild, Places;
    ValidOnWay(tb, live, s, id, i, lo, hi, t0);
    FillAdd(tb, live, s, id, i, lo, hi, c, t0);
    var tb' := AddChild(tb, id, i, c);
    FillDown(tb', s, id, i, lo, hi);
    hide Inv, CanAdd;
  }

  /** No next level to be had: the walk stops at this node. */
  lemma HeadStuck(tb: Table, live: Live, s: Seg, level: nat, id: nat, i: nat, lo: nat, hi: nat, t0: Table, lvl: nat,
                  flag: bool)
    requires HeadPre(tb, live, s, level, id, i, lo, hi, None, t0, lvl, flag)
    requires N(tb, id, i).valid && N(tb, id, i).leaf && InUse(tb.fb, N(tb, id, i))
    ensures FillPost(tb, tb, live, s, Start(tb, id, i) + lo, Start(tb, id, i) + hi + 1, t0, false,
                     Start(tb, id, i) + lo, (id, i))
  {
    hide Start, InUse, Fits, Part, Pieces, Highest, Used, NonEmpty, Accounts, SpansBefore, Low, Base, Ext, BlockSpan, N,
         LeadsTo, HasMem, NodesOf;
    ValidOnWay(tb, live, s, id, i, lo, hi, t0);
  }

  lemma HeadFilled(tb: Table, live: Live, s: Seg, level: nat, id: nat, i: nat, lo: nat, hi: nat, bare: Option<nat>,
                   t0: Table, lvl: nat, flag: bool)
    requires HeadPre(tb, live, s, level, id, i, lo, hi, bare, t0, lvl, flag) && !InUse(tb.fb, N(tb, id, i))
    ensures var tb' := Put(tb, id, i, Filled(N(tb, id, i), s.lo, s, lo, hi, !N(tb, id, i).valid));
            FillPost(tb, tb', live, s, Start(tb, id, i) + lo, Start(tb, id, i) + hi + 1, t0, true, 0, (0, 0))
    ensures HasMem(tb, id) && i < |NodesOf(tb, id)|
  {
    hide Start, InUse, Fits, Part, Pieces, Highest, Used, NonEmpty, Accounts, SpansBefore, Low, Base, Ext, BlockSpan, N,
         LeadsTo, HasMem, NodesOf, Put, Filled;
    FillHere(tb, live, s, id, i, lo, hi, bare, t0);
    PutPlaces(tb, id, i, Filled(N(tb, id, i), s.lo, s, lo, hi, !N(tb, id, i).valid), bare);
    hide FillState, Places;
  }

  lemma HeadCanExtend(tb: Table, live: Live, s: Seg, level: nat, id: nat, i: nat, lo: nat, hi: nat, t0: Table,
                      lvl: nat, flag: bool)
    requires HeadPre(tb, live, s, level, id, i, lo, hi, None, t0, lvl, flag)
    ensures Shape(tb) && Links(tb) && Accounts(tb) && IsNode(tb, id, i) && Lv(tb, id) == level && SplitOk(s, lvl)
  {
    hide Shape, Links, Accounts, Start, InUse, N;
  }

  lemma FillPostAfter(tb: Table, t1: Table, t2: Table, live: Live, s: Seg, f: nat, end: nat, t0: Table, ok: bool,
                      stop: nat, st: (nat, nat))
    requires Places(tb, t1) && FillPost(t1, t2, live, s, f, end, t0, ok, stop, st)
    ensures FillPost(tb, t2, live, s, f, end, t0, ok, stop, st)
  {
    hide Places, FillState, StuckAt;
    PlacesTrans(tb, t1, t2);
  }

  // ---------------------------------------------------------------- one entry of a level block

  ghost predicate EntryPre(tb: Table, live: Live, s: Seg, level: nat, id: nat, i: nat, lo: nat, hi: nat,
                           bare: Option<nat>, t0: Table,
                           lvl: nat, flag: bool)
  {
    && id in tb.bitmap && Lv(tb, id) == level && InBlock(s, level, Pfx(tb, id), lo, hi) && Shared(tb, s, id)
    && IndexAt(level, lo) <= i <= IndexAt(level, hi)
    && FillState(tb, live, s, Reach(level, Pfx(tb, id), lo, hi, i), bare, t0)
    && (bare == None || (bare == Some(id) && forall j :: N(tb, id, j) == ZERO))
    && WalkAt(s, lvl, flag, level, Pfx(tb, id), lo, hi)
  }

  lemma EntryHead(tb: Table, live: Live, s: Seg, level: nat, id: nat, i: nat, lo: nat, hi: nat, bare: Option<nat>,
                  t0: Table, lvl: nat, flag: bool)
    requires EntryPre(tb, live, s, level, id, i, lo, hi, bare, t0, lvl, flag)
    requires i == IndexAt(level, lo) || i == IndexAt(level, hi)
    ensures HeadPre(tb, live, s, level, id, i, NodeBase(level, lo, i), NodeLimit(level, hi, i), bare, t0, lvl,
                    if lvl == level then i == IndexAt(level, lo) else flag)
    ensures Start(tb, id, i) + NodeBase(level, lo, i) == Reach(level, Pfx(tb, id), lo, hi, i)
    ensures Start(tb, id, i) + NodeLimit(level, hi, i) + 1 == Reach(level, Pfx(tb, id), lo, hi, i + 1)
  {
    hide FillState, EntryBase, IndexAt, OffsetAt, Span, BlockSpan, N, SplitOk, Shared, Reach;
    var p := Pfx(tb, id);
    NodeRange(s, level, p, lo, hi, i);
    ReachNode(s, level, p, lo, hi, i);
    var flag' := if lvl == level then i == IndexAt(level, lo) else flag;
    if level < 3 && Sides(Span(level), NodeBase(level, lo, i), NodeLimit(level, hi, i)) > 0 {
      WalkNode(s, lvl, flag', level, p, lo, hi, i);
    }
  }

  /** The nodes between the two ends are free. */
  lemma EntryMiddle(tb: Table, live: Live, s: Seg, level: nat, id: nat, i: nat, lo: nat, hi: nat, bare: Option<nat>,
                    t0: Table, lvl: nat, flag: bool)
    requires EntryPre(tb, live, s, level, id, i, lo, hi, bare, t0, lvl, flag)
    requires IndexAt(level, lo) < i < IndexAt(level, hi)
    ensures !N(tb, id, i).valid && HasMem(tb, id) && i < |NodesOf(tb, id)|
    ensures FillPost(tb, Put(tb, id, i, Filled(N(tb, id, i), s.lo, s, 0, Span(level) - 1, true)), live, s,
                     Reach(level, Pfx(tb, id), lo, hi,
                           i), Reach(level, Pfx(tb, id), lo, hi, i + 1), t0, true, 0, (0, 0))
  {
    hide FillState, EntryBase, IndexAt, OffsetAt, Span, BlockSpan, N, SplitOk, Shared, Reach, Put, Filled, FillPost,
         WalkAt,
         InUse, HasMem, NodesOf;
    var p := Pfx(tb, id);
    NodeRange(s, level, p, lo, hi, i);
    ReachNode(s, level, p, lo, hi, i);
    WholeNode(s, EntryBase(level, p, i), Span(level), NodeBase(level, lo, i), NodeLimit(level, hi, i));
    MiddleFree(tb, live, s, id, i, bare, t0);
  }

  lemma MiddleFree(tb: Table, live: Live, s: Seg, id: nat, i: nat, bare: Option<nat>, t0: Table)
    requires FillState(tb, live, s, Start(tb, id, i), bare, t0) && AtNode(tb, s, id, i, 0, Span(Lv(tb, id)) - 1)
    requires bare == None || (bare == Some(id) && forall j :: N(tb, id, j) == ZERO)
    requires s.lo <= Start(tb, id, i) && Stop(tb, id, i) <= s.hi + 1
    ensures !N(tb, id, i).valid && HasMem(tb, id) && i < |NodesOf(tb, id)|
    ensures FillPost(tb, Put(tb, id, i, Filled(N(tb, id, i), s.lo, s, 0, Span(Lv(tb, id)) - 1, true)), live, s,
                     Start(tb, id, i), Stop(tb, id, i), t0, true, 0, (0, 0))
  {
    hide EntryBase, Span, BlockSpan, Shared, Put, Filled, Pieces, Highest, Links, Used, NonEmpty, Accounts, SpansBefore,
         Low, Base, Ext, N, Part, Fits, LeadsTo, HasMem, NodesOf;
    if N(tb, id, i).valid {
      ValidOnWay(tb, live, s, id, i, 0, Span(Lv(tb, id)) - 1, t0);
      assert false;
    }
    FillHere(tb, live, s, id, i, 0, Span(Lv(tb, id)) - 1, bare, t0);
    PutPlaces(tb, id, i, Filled(N(tb, id, i), s.lo, s, 0, Span(Lv(tb, id)) - 1, true), bare);
    hide InUse, FillState, Places;
  }

  lemma PutPlaces(tb: Table, id: nat, i: nat, n: Node, bare: Option<nat>)
    requires Structure(tb, None, bare) && IsNode(tb, id, i)
    ensures Places(tb, Put(tb, id, i, n))
  {
    hide EntryBase, Span, BlockSpan, N, HasMem, NodesOf, LeadsTo, Put;
    PutGet(tb, id, i, n);
  }

  // ---------------------------------------------------------------- the loop over a level block

  lemma BlockToEntry(tb: Table, live: Live, s: Seg, level: nat, pre: Option<(nat, nat)>, lo: nat, hi: nat,
                     bare: Option<nat>, t0: Table,
                     lvl: nat, flag: bool)
    requires BlockPre(tb, live, s, level, pre, lo, hi, bare, t0, lvl, flag)
    ensures EntryPre(tb, live, s, level, Lead(tb, pre), IndexAt(level, lo), lo, hi, bare, t0,
                     LvlAt(lvl, level, lo, hi), flag)
    ensures var v := LvlAt(lvl, level, lo, hi); (lvl < level ==> v == lvl) && (lvl >= level ==> v >= level)
    ensures IndexAt(level, lo) <= IndexAt(level, hi) && level < LEVELS && Places(tb, tb)
    ensures SplitOk(s, LvlAt(lvl, level, lo, hi))
  {
    hide Places, IndexAt, OffsetAt, BlockSpan, SplitOk, WalkAt, WalkIn, N, Next, Fits, Pieces, Highest, Links, Used,
         NonEmpty, Accounts, SpansBefore, Low, Base, Ext, Shared, Part, LvlAt, HasMem, NodesOf;
    var id := Lead(tb, pre);
    IndexOrder(level, lo, hi);
    WalkStart(s, lvl, flag, level, Pfx(tb, id), lo, hi);
    SelfPlaces(tb, bare);
    hide FillState;
  }

  lemma SelfPlaces(tb: Table, bare: Option<nat>)
    requires Structure(tb, None, bare)
    ensures Places(tb, tb)
  {
    hide BlockSpan, N, HasMem, NodesOf, LeadsTo, LeadsOk, FormsOk, PlacesDiffer, Accounts, Used, NonEmpty;
  }

  lemma EntryStep(tb: Table, tb': Table, live: Live, s: Seg, level: nat, id: nat, i: nat, lo: nat, hi: nat,
                  bare: Option<nat>, t0: Table,
                  lvl: nat, flag: bool, lvl': nat, flag': bool, stop: nat, st: (nat, nat))
    requires EntryPre(tb, live, s, level, id, i, lo, hi, bare, t0, lvl, flag) && i < IndexAt(level, hi)
    requires FillPost(tb, tb', live, s, Reach(level, Pfx(tb, id), lo, hi, i),
                      Reach(level, Pfx(tb, id), lo, hi, i + 1), t0, true, stop, st)
    requires SplitOk(s, lvl') && (lvl < level ==> lvl' == lvl && flag' == flag) && (lvl == level ==> lvl' == level)
    ensures EntryPre(tb', live, s, level, id, i + 1, lo, hi, None, t0, lvl', flag')
  {
    hide IndexAt, OffsetAt, BlockSpan, SplitOk, WalkIn, FillState, Reach;
    assert PlaceExt(tb, tb', id);
    hide Places;
  }

  lemma FillEntryAfter(tb: Table, t: Table, t': Table, live: Live, s: Seg, level: nat, id: nat, i: nat, lo: nat,
                       hi: nat, bare: Option<nat>,
                       t0: Table, lvl: nat, flag: bool, ok: bool, stop: nat, st: (nat, nat))
    requires Places(tb, t) && EntryPre(t, live, s, level, id, i, lo, hi, bare, t0, lvl, flag)
    requires var p := Pfx(t, id);
             FillPost(t, t', live, s, Reach(level, p, lo, hi, i), Reach(level, p, lo, hi, i + 1), t0, ok, stop, st)
    ensures Places(tb, t') && Pfx(t', id) == Pfx(t, id)
    ensures !ok ==> FillPost(tb, t', live, s, Pfx(t, id) + lo, Pfx(t, id) + hi + 1, t0, ok, stop, st)
    ensures ok && i == IndexAt(level, hi) ==>
              FillPost(tb, t', live, s, Pfx(t, id) + lo, Pfx(t, id) + hi + 1, t0, true, 0, (0, 0))
  {
    hide FillState, StuckAt, InBlock, IndexAt, WalkAt, Shared;
    ReachBounds(s, level, Pfx(t, id), lo, hi, i);
    PlacesTrans(tb, t, t');
    assert PlaceExt(t, t', id);
    hide Places;
  }
}
