/** The ranges that the recursive walks over the table visit. */
module MaptWalk {
  import opened Arith
  import opened Basics
  import opened MaptModel
  import opened MaptInv

  /** node_base and node_limit of entry `i` when a level block is walked over `[lo, hi]`. */
  function NodeBase(l: nat, lo: nat, i: nat): (r: nat) ensures r < Span(l) {
    if i == IndexAt(l, lo) then OffsetAt(l, lo) else 0
  }

  function NodeLimit(l: nat, hi: nat, i: nat): (r: nat) ensures r < Span(l) {
    if i == IndexAt(l, hi) then OffsetAt(l, hi) else Span(l) - 1
  }

  /** `[lo, hi]` is the part of `s` in the span of a level block at `p`, relative to `p`. */
  predicate InBlock(s: Seg, l: nat, p: nat, lo: nat, hi: nat) {
    l < LEVELS && InSpan(s, p, BlockSpan(l), lo, hi)
  }

  /** `[lo, hi]` is the part of `s` in a span of `n` addresses from `p`. */
  predicate InSpan(s: Seg, p: nat, n: nat, lo: nat, hi: nat) {
    lo <= hi < n && p + lo == Max(p, s.lo) && p + hi + 1 == Min(p + n, s.hi + 1)
  }

  lemma RootRange(s: Seg)
    requires s.lo <= s.hi < ADDRESSES
    ensures InBlock(s, 0, 0, s.lo, s.hi)
  {}

  lemma ChildRange(s: Seg, l: nat, p: nat, lo: nat, hi: nat)
    requires l + 1 < LEVELS && InSpan(s, p, Span(l), lo, hi)
    ensures InBlock(s, l + 1, p, lo, hi)
  {
    NextSpan(l);
  }

  lemma IndexOrder(l: nat, lo: nat, hi: nat)
    requires l < LEVELS && lo <= hi < BlockSpan(l)
    ensures IndexAt(l, lo) <= IndexAt(l, hi)
  {
    hide IndexAt, EntryBase, BlockSpan;
    Locate(l, 0, lo);
    Locate(l, 0, hi);
    if IndexAt(l, hi) < IndexAt(l, lo) {
      EntryOrder(l, 0, IndexAt(l, hi), IndexAt(l, lo));
    }
  }

  /** The walk gives each node exactly the part of the segment in its span. */
  lemma NodeRange(s: Seg, l: nat, p: nat, lo: nat, hi: nat, i: nat)
    requires InBlock(s, l, p, lo, hi) && IndexAt(l, lo) <= i <= IndexAt(l, hi)
    ensures InSpan(s, EntryBase(l, p, i), Span(l), NodeBase(l, lo, i), NodeLimit(l, hi, i))
    ensures i == IndexAt(l, lo) ==> EntryBase(l, p, i) + NodeBase(l, lo, i) == p + lo
    ensures i == IndexAt(l, hi) ==> EntryBase(l, p, i) + NodeLimit(l, hi, i) == p + hi
    ensures IndexAt(l, lo) < i < IndexAt(l, hi) ==>
              s.lo <= EntryBase(l, p, i) && EntryBase(l, p, i) + Span(l) <= s.hi + 1
  {
    hide IndexAt, EntryBase, BlockSpan, OffsetAt, Span;
    var b, e := IndexAt(l, lo), IndexAt(l, hi);
    Locate(l, p, lo);
    Locate(l, p, hi);
    EntryFits(l, p, i);
    if b < i {
      EntryOrder(l, p, b, i);
    }
    if i < e {
      EntryOrder(l, p, i, e);
    }
  }

  // ---------------------------------------------------------------- ends of the range

  function Left(lo: nat): nat { if lo > 0 then 1 else 0 }
  function Right(n: nat, hi: nat): nat { if hi + 1 < n then 1 else 0 }

  /** At how many of its two ends `[lo, hi]` stops short of a span of `n` addresses. */
  function Sides(n: nat, lo: nat, hi: nat): nat { Left(lo) + Right(n, hi) }

  /** How many of these ends lie in entry `i` of a level block. */
  function SidesAt(l: nat, lo: nat, hi: nat, i: nat): nat {
    (if i == IndexAt(l, lo) then Left(lo) else 0) + (if i == IndexAt(l, hi) then Right(BlockSpan(l), hi) else 0)
  }

  /** How many of them lie in entries before `i`. */
  function SidesDone(l: nat, lo: nat, hi: nat, i: nat): nat {
    (if i > IndexAt(l, lo) then Left(lo) else 0) + (if i > IndexAt(l, hi) then Right(BlockSpan(l), hi) else 0)
  }

  lemma NodeSides(l: nat, lo: nat, hi: nat, i: nat)
    requires l < LEVELS && lo <= hi < BlockSpan(l)
    ensures Sides(Span(l), NodeBase(l, lo, i), NodeLimit(l, hi, i)) <= SidesAt(l, lo, hi, i)
  {
    hide IndexAt;
    LastOffset(l);
  }

  lemma LastOffset(l: nat)
    requires l < LEVELS
    ensures OffsetAt(l, BlockSpan(l) - 1) == Span(l) - 1 && OffsetAt(l, 0) == 0
  {}

  lemma WholeNode(s: Seg, p: nat, n: nat, lo: nat, hi: nat)
    requires InSpan(s, p, n, lo, hi)
    ensures Sides(n, lo, hi) == 0 <==> s.lo <= p && p + n <= s.hi + 1
    ensures Sides(n, lo, hi) == 0 ==> lo == 0 && hi == n - 1
  {}

  // ---------------------------------------------------------------- lvl and head_flag

  /** `lvl` is 3, or the level at which the paths to the two ends of the segment part. */
  predicate SplitOk(s: Seg, lvl: nat) {
    lvl <= 3 && (lvl < 3 ==> s.lo / BlockSpan(lvl) == s.hi / BlockSpan(lvl) && s.lo / Span(lvl) != s.hi / Span(lvl))
  }

  /** What `lvl` and `headFlag` say about a span of `n` addresses at `p` walked on level `l`: below the
      parting level, which end of the segment it contains; from there up, that it contains both. */
  predicate WalkIn(s: Seg, lvl: nat, headFlag: bool, l: nat, p: nat, n: nat) {
    if lvl < l then (if headFlag then p <= s.lo < p + n <= s.hi else s.lo < p <= s.hi < p + n)
    else p <= s.lo && s.hi < p + n
  }

  /** The address that ummu_table_type_switch_plbi completes a node-relative range with. */
  function End(s: Seg, lvl: nat, headFlag: bool): nat {
    if lvl < 3 && !headFlag then s.hi else s.lo
  }

  lemma EndInSpan(s: Seg, lvl: nat, headFlag: bool, l: nat, p: nat)
    requires s.lo <= s.hi && l < 3 && WalkIn(s, lvl, headFlag, l + 1, p, Span(l)) && p % Span(l) == 0
    ensures End(s, lvl, headFlag) - End(s, lvl, headFlag) % Span(l) == p
  {
    hide Span;
    InCell(End(s, lvl, headFlag), Span(l), p);
  }

  lemma SplitHere(s: Seg, l: nat, p: nat, lo: nat, hi: nat)
    requires InBlock(s, l, p, lo, hi) && p <= s.lo && s.hi < p + BlockSpan(l) && p % BlockSpan(l) == 0
    ensures s.lo / BlockSpan(l) == s.hi / BlockSpan(l)
    ensures IndexAt(l, lo) == IndexAt(l, hi) <==> s.lo / Span(l) == s.hi / Span(l)
  {
    hide BlockSpan, IndexAt, OffsetAt, Span;
    InCell(s.lo, BlockSpan(l), p);
    InCell(s.hi, BlockSpan(l), p);
    CellIndex(l, p, lo);
    CellIndex(l, p, hi);
  }

  lemma CellIndex(l: nat, p: nat, a: nat)
    requires l < LEVELS && a < BlockSpan(l) && p % BlockSpan(l) == 0
    ensures (p + a) / Span(l) == p / Span(l) + IndexAt(l, a)
  {
    BlockOfSpans(l, p);
    Locate(l, p, a);
    hide BlockSpan, IndexAt, OffsetAt, Span;
    DivMod(p, Span(l));
    assert Span(l) * (p / Span(l) + IndexAt(l, a)) == p + IndexAt(l, a) * Span(l);
    DivModUnique(p + a, Span(l), p / Span(l) + IndexAt(l, a), OffsetAt(l, a));
  }

  /** A cell of a deeper level lies in one node. */
  lemma CoarserCell(l: nat, m: nat, a: nat, b: nat)
    requires l < m < LEVELS && a / BlockSpan(m) == b / BlockSpan(m)
    ensures a / Span(l) == b / Span(l)
  {
    var k := if m == l + 1 then 1 else if m == l + 2 then 512 else 512 * 512;
    assert Span(l) == BlockSpan(m) * k;
    hide Span, BlockSpan;
    DivDiv(a, BlockSpan(m), k);
    DivDiv(b, BlockSpan(m), k);
  }

  /** `lvl` as the walk of a level block sets it first. */
  function LvlAt(lvl: nat, l: nat, lo: nat, hi: nat): nat {
    if lvl >= 3 && IndexAt(l, lo) != IndexAt(l, hi) then l else lvl
  }

  lemma WalkLevel(s: Seg, lvl: nat, headFlag: bool, l: nat, p: nat, lo: nat, hi: nat)
    requires InBlock(s, l, p, lo, hi) && p % BlockSpan(l) == 0
    requires SplitOk(s, lvl) && WalkIn(s, lvl, headFlag, l, p, BlockSpan(l))
    ensures var v := LvlAt(lvl, l, lo, hi);
            && SplitOk(s, v) && (lvl < l ==> v == lvl) && (lvl >= l ==> v >= l)
            && (v > l ==> IndexAt(l, lo) == IndexAt(l, hi)) && (v == l && l < 3 ==> IndexAt(l, lo) != IndexAt(l, hi))
  {
    hide IndexAt, OffsetAt, Span, BlockSpan;
    if lvl >= l {
      SplitHere(s, l, p, lo, hi);
      if l < lvl < 3 {
        CoarserCell(l, lvl, s.lo, s.hi);
      }
    }
  }

  /** Every node that the walk shares with something else contains the end that the flags name. */
  lemma WalkNode(s: Seg, lvl: nat, headFlag: bool, l: nat, p: nat, lo: nat, hi: nat, i: nat)
    requires InBlock(s, l, p, lo, hi) && IndexAt(l, lo) <= i <= IndexAt(l, hi)
    requires (i == IndexAt(l, lo) || i == IndexAt(l, hi))
    requires lvl > l ==> IndexAt(l, lo) == IndexAt(l, hi)
    requires lvl == l && l < 3 ==> IndexAt(l, lo) != IndexAt(l, hi) && headFlag == (i == IndexAt(l, lo))
    requires lvl != l ==> WalkIn(s, lvl, headFlag, l, p, BlockSpan(l))
    requires lvl == l ==> p <= s.lo && s.hi < p + BlockSpan(l)
    requires l < 3 && Sides(Span(l), NodeBase(l, lo, i), NodeLimit(l, hi, i)) > 0
    ensures WalkIn(s, lvl, headFlag, l + 1, EntryBase(l, p, i), Span(l))
  {
    hide IndexAt, OffsetAt, Span, BlockSpan, EntryBase;
    NodeRange(s, l, p, lo, hi, i);
    EntryFits(l, p, i);
    WholeNode(s, EntryBase(l, p, i), Span(l), NodeBase(l, lo, i), NodeLimit(l, hi, i));
    if IndexAt(l, lo) != IndexAt(l, hi) {
      IndexOrder(l, lo, hi);
      EntryOrder(l, p, IndexAt(l, lo), IndexAt(l, hi));
      NodeRange(s, l, p, lo, hi, IndexAt(l, lo));
      NodeRange(s, l, p, lo, hi, IndexAt(l, hi));
    }
  }

  /** How far a level block has been walked before entry `i`. */
  function Reach(l: nat, p: nat, lo: nat, hi: nat, i: nat): nat {
    if i <= IndexAt(l, lo) then p + lo else if i <= IndexAt(l, hi) then EntryBase(l, p, i) else p + hi + 1
  }

  lemma ReachNode(s: Seg, l: nat, p: nat, lo: nat, hi: nat, i: nat)
    requires InBlock(s, l, p, lo, hi) && IndexAt(l, lo) <= i <= IndexAt(l, hi)
    ensures Reach(l, p, lo, hi, i) == EntryBase(l, p, i) + NodeBase(l, lo, i)
    ensures Reach(l, p, lo, hi, i + 1) == EntryBase(l, p, i) + NodeLimit(l, hi, i) + 1
  {
    hide IndexAt, EntryBase, OffsetAt, Span, BlockSpan;
    NodeRange(s, l, p, lo, hi, i);
    EntryNext(l, p, i);
  }

  /** What the walk of a level block knows of `lvl` and `headFlag` before each entry. */
  predicate WalkAt(s: Seg, lvl: nat, headFlag: bool, l: nat, p: nat, lo: nat, hi: nat) {
    && SplitOk(s, lvl) && (lvl > l ==> IndexAt(l, lo) == IndexAt(l, hi))
    && (lvl == l && l < 3 ==> IndexAt(l, lo) != IndexAt(l, hi))
    && (lvl != l ==> WalkIn(s, lvl, headFlag, l, p, BlockSpan(l)))
    && (lvl == l ==> p <= s.lo && s.hi < p + BlockSpan(l))
  }

  lemma WalkStart(s: Seg, lvl: nat, headFlag: bool, l: nat, p: nat, lo: nat, hi: nat)
    requires InBlock(s, l, p, lo, hi) && p % BlockSpan(l) == 0
    requires SplitOk(s, lvl) && WalkIn(s, lvl, headFlag, l, p, BlockSpan(l))
    ensures WalkAt(s, LvlAt(lvl, l, lo, hi), headFlag, l, p, lo, hi)
    ensures var v := LvlAt(lvl, l, lo, hi); SplitOk(s, v) && (lvl < l ==> v == lvl) && (lvl >= l ==> v >= l)
  {
    hide IndexAt, Span, BlockSpan, SplitOk;
    WalkLevel(s, lvl, headFlag, l, p, lo, hi);
  }

  lemma ReachBounds(s: Seg, l: nat, p: nat, lo: nat, hi: nat, i: nat)
    requires InBlock(s, l, p, lo, hi) && IndexAt(l, lo) <= i <= IndexAt(l, hi)
    ensures p + lo <= Reach(l, p, lo, hi, i) && Reach(l, p, lo, hi, i + 1) <= p + hi + 1
  {
    hide IndexAt, EntryBase, OffsetAt, Span, BlockSpan;
    NodeRange(s, l, p, lo, hi, i);
    Locate(l, p, lo);
    Locate(l, p, hi);
    if IndexAt(l, lo) < i {
      EntryOrder(l, p, IndexAt(l, lo), i);
    }
    if i < IndexAt(l, hi) {
      EntryNext(l, p, i);
      if i + 1 < IndexAt(l, hi) {
        EntryOrder(l, p, i + 1, IndexAt(l, hi));
      }
    }
  }
}
