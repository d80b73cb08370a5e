/** The segment records beside the table: lookup over a range map, and the decision what a grant or an
    ungrant may do. */
module SegMng {
  import opened Basics
  import opened MaptModel
  import opened MaptInv
  import opened MaptPieces
  import opened MaptToken


  datatype Range = Match | Overlap | NotExist

  /** ummu_compare: how `[left, left + size]` lies to the first record that does not end before it. The
      sum is a 64-bit one. */
  function Compare(left: nat, size: nat, s: Seg): Range {
    if s.lo == left && s.hi - s.lo == size then Match
    else if (left + size) % U64 < s.lo then NotExist
    else Overlap
  }

  /** Records: keyed by their first address, pairwise disjoint, page aligned, one or two tokens; a single token
      is kept twice. */
  ghost predicate RecsOk(recs: Live) {
    LiveOk(recs) && forall x :: x in recs ==> recs[x].lo == x && (recs[x].check ==> TokensOk(recs[x]))
  }

  predicate TokensOk(s: Seg) {
    s.count == MAX_TOKENS || (s.count == 1 && s.tok0 == s.tok1)
  }

  /** The range map's search: the lowest record that does not end before `left`. */
  ghost predicate IsFirst(recs: Live, left: nat, r: Option<Seg>) {
    && (r.None? ==> forall x :: x in recs ==> recs[x].hi < left)
    && (r.Some? ==> && r.value.lo in recs && recs[r.value.lo] == r.value && r.value.hi >= left
                    && forall x :: x in recs && recs[x].hi >= left ==> r.value.lo <= recs[x].lo)
  }

  method FindFirst(recs: Live, left: nat) returns (r: Option<Seg>)
    requires RecsOk(recs)
    ensures IsFirst(recs, left, r)
  {
    var keys := recs.Keys;
    r := None;
    while keys != {}
      invariant keys <= recs.Keys
      invariant r.None? ==> forall x :: x in recs && x !in keys ==> recs[x].hi < left
      invariant r.Some? ==> r.value.lo in recs && recs[r.value.lo] == r.value && r.value.hi >= left
      invariant r.Some? ==> forall x :: x in recs && x !in keys && recs[x].hi >= left ==> r.value.lo <= recs[x].lo
      decreases |keys|
    {
      var x :| x in keys;
      keys := keys - {x};
      if recs[x].hi >= left && (r.None? || recs[x].lo < r.value.lo) {
        r := Some(recs[x]);
      }
    }
  }

  /** ummu_find_seg. */
  method FindSeg(recs: Live, left: nat, size: nat) returns (r: Option<Seg>, comp: Range)
    requires RecsOk(recs)
    ensures IsFirst(recs, left, r) && comp == if r.None? then NotExist else Compare(left, size, r.value)
  {
    r := FindFirst(recs, left);
    comp := if r.None? then NotExist else Compare(left, size, r.value);
  }

  /** For a range that does not wrap, "not present" means disjoint from every record. */
  lemma NotExistExact(recs: Live, left: nat, size: nat, r: Option<Seg>)
    requires RecsOk(recs) && IsFirst(recs, left, r) && left + size < U64
    ensures (r.None? || Compare(left, size, r.value) == NotExist) <==> forall x :: x in recs ==>
              recs[x].hi < left || left + size < recs[x].lo
  {
    if r.Some? {
      assert r.value.lo <= r.value.hi;
      forall x | x in recs && x != r.value.lo ensures recs[x].hi < left || recs[x].lo > r.value.hi {
        assert Disjoint(recs[x], recs[r.value.lo]);
      }
    }
  }

  /** "Match" means that exactly this range is recorded. */
  lemma MatchExact(recs: Live, left: nat, size: nat, r: Option<Seg>)
    requires RecsOk(recs) && IsFirst(recs, left, r)
    ensures (r.Some? && Compare(left, size, r.value) == Match) <==> left in recs && recs[left].hi - left == size
    ensures r.Some? && Compare(left, size, r.value) == Match ==> r.value == recs[left]
  {
    if left in recs && recs[left].hi - left == size {
      forall x | x in recs && x != left ensures recs[x].hi < left || left < recs[x].lo {
        assert Disjoint(recs[x], recs[left]);
      }
    }
  }

  datatype Grant = NewSegment | SecondToken | Refused

  /** What a grant of `[left, left + size]` may do. */
  ghost function GrantRule(recs: Live, left: nat, size: nat, perm: nat, eBit: nat, checked: bool): Grant {
    if forall x :: x in recs ==> recs[x].hi < left || left + size < recs[x].lo then NewSegment
    else if left in recs && recs[left].hi - left == size && recs[left].check && checked
            && recs[left].perm == perm && recs[left].eBit == eBit && recs[left].count == 1 then SecondToken
    else Refused
  }

  /** ummu_grant_check in table mode. */
  method GrantCheck(recs: Live, left: nat, size: nat, perm: nat, eBit: nat, checked: bool) returns (g: Grant)
    requires RecsOk(recs) && left + size < U64
    ensures g == GrantRule(recs, left, size, perm, eBit, checked)
  {
    var r, comp := FindSeg(recs, left, size);
    NotExistExact(recs, left, size, r);
    MatchExact(recs, left, size, r);
    match comp {
      case NotExist => return NewSegment;
      case Overlap => return Refused;
      case Match =>
        assert recs[left].hi >= left && recs[left].lo <= left + size;
        if r.value.check && checked && r.value.perm == perm && r.value.eBit == eBit && r.value.count == 1 {
          return SecondToken;
        }
        return Refused;
    }
  }

  datatype Ungrant = WholeSegment | OneToken | Denied

  /** What an ungrant of `[left, left + size]`, by token or not, may do. */
  function UngrantRule(recs: Live, left: nat, size: nat, token: Option<nat>): Ungrant {
    if !(left in recs && recs[left].hi - left == size) then Denied
    else if token.None? then WholeSegment
    else if !recs[left].check || (token.value != recs[left].tok0 && token.value != recs[left].tok1) then Denied
    else if recs[left].count == 1 then WholeSegment
    else OneToken
  }

  /** ummu_ungrant_check in table mode; with one or two tokens its "token count invalid" branch is dead. */
  method UngrantCheck(recs: Live, left: nat, size: nat, token: Option<nat>) returns (u: Ungrant)
    requires RecsOk(recs)
    ensures u == UngrantRule(recs, left, size, token)
    ensures u != Denied <==> && left in recs && recs[left].hi == left + size
                             && (token.Some? ==> recs[left].check && token.value in {recs[left].tok0, recs[left].tok1})
    ensures u == OneToken ==> token.Some? && recs[left].count == MAX_TOKENS
    ensures u == WholeSegment && token.Some? ==> recs[left].count == 1
  {
    var r, comp := FindSeg(recs, left, size);
    MatchExact(recs, left, size, r);
    if r.None? || comp != Match {
      return Denied;
    }
    if token.None? {
      return WholeSegment;
    }
    if !r.value.check {
      return Denied;
    }
    if r.value.tok0 == token.value || r.value.tok1 == token.value {
      if r.value.count == 1 {
        return WholeSegment;
      }
      assert r.value.count == MAX_TOKENS;
      return OneToken;
    }
    return Denied;
  }

  /** A new segment keeps the records in order. */
  lemma InsertKeeps(recs: Live, s: Seg)
    requires RecsOk(recs) && s.lo <= s.hi < ADDRESSES && s.lo % PAGE == 0
    requires s.check ==> s.count == 1 && s.tok0 == s.tok1
    requires forall x :: x in recs ==> recs[x].hi < s.lo || s.hi < recs[x].lo
    ensures Fits(recs, s.lo, s) && RecsOk(recs[s.lo := s])
  {}

  lemma TokenKeeps(recs: Live, left: nat, op: TokenOp)
    requires RecsOk(recs) && left in recs && TokenFits(op, recs[left])
    ensures RecsOk(recs[left := SegToken(op, recs[left])])
  {
    SegSame(op, recs[left]);
    assert TokensOk(SegToken(op, recs[left]));
    hide SegToken;
  }

  lemma DeleteKeeps(recs: Live, left: nat)
    requires RecsOk(recs)
    ensures RecsOk(recs - {left})
  {}
}
