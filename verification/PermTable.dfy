/** ummu_perm_grant and ummu_perm_ungrant in table mode: the checks, the table operation and the records. */
module PermTable {
  import opened Arith
  import opened Basics
  import opened MaptModel
  import opened MaptInv
  import opened MaptPieces
  import opened MaptExt
  import opened MaptToken
  import opened MaptNotice
  import opened MaptTable
  import opened MaptTheorems
  import opened SegMng
  import opened PermMeaning

  /** `LostRecord`: the table was filled, but the record of the segment was refused memory. */
  datatype Result = Ok | Einval | NoLevelBlock | LostRecord

  /** ummu_check_data in table mode; `argsOk` stands for its tests of permission, e-bit and token kind. */
  predicate DataOk(base: nat, size: nat, argsOk: bool) {
    size != 0 && base < ADDRESSES && size - 1 < ADDRESSES && base + size - 1 < ADDRESSES && argsOk && base % PAGE == 0
  }

  /** The segment that a grant asks for. */
  function NewSeg(base: nat, size: nat, perm: nat, eBit: nat, token: Option<nat>): Seg
    requires size > 0
  {
    var tok := if token.Some? then token.value else 0;
    Seg(base, base + size - 1, perm, eBit, token.Some?, if token.Some? then 1 else 0, tok, tok)
  }

  /** What a grant asks for; the records afterwards if it succeeds. */
  ghost function Granted(recs: Live, base: nat, size: nat, perm: nat, eBit: nat, token: Option<nat>): Live
    requires size > 0
  {
    match GrantRule(recs, base, size - 1, perm, eBit, token.Some?)
    case NewSegment => recs[base := NewSeg(base, size, perm, eBit, token)]
    case SecondToken =>
      if token.Some? && base in recs then recs[base := SegToken(AddToken(token.value), recs[base])] else recs
    case Refused => recs
  }

  function Ungranted(recs: Live, base: nat, size: nat, token: Option<nat>): Live {
    match UngrantRule(recs, base, (size + U64 - 1) % U64, token)
    case WholeSegment => recs - {base}
    case OneToken =>
      if token.Some? && base in recs then recs[base := SegToken(RemoveToken(token.value), recs[base])] else recs
    case Denied => recs
  }

  class PermTable {
    const tbl: Mapt
    const ias: nat                 // width of an input address
    var recs: Live                 // granted_addr_mng

    ghost predicate Valid()
      reads this, tbl
    {
      RecsOk(recs) && tbl.Represents(recs)
    }

    constructor (freeBit: bool, mayExpand: bool, width: nat)
      ensures Valid() && recs == map[] && fresh(tbl) && ias == width && tbl.expan == mayExpand
      ensures tbl.Tb() == EmptyTable(freeBit)
    {
      tbl := new Mapt(freeBit, mayExpand);
      ias, recs := width, map[];
    }

    /** ummu_perm_grant. The table and the records agree afterwards exactly if no record was lost. */
    method Grant(va: nat, size: nat, perm: nat, eBit: nat, token: Option<nat>, argsOk: bool, mem: bool, recordMem: bool)
      returns (r: Result)
      requires Valid() && size < U64
      modifies this, tbl
      ensures (Valid() <==> r != LostRecord) && (recordMem ==> Valid())
      ensures var base := va % Pow2(ias);
              if !DataOk(base, size, argsOk) then r == Einval && recs == old(recs)
              else match GrantRule(old(recs), base, size - 1, perm, eBit, token.Some?)
                   case Refused => r == Einval && recs == old(recs)
                   case SecondToken => r == Ok && recs == Granted(old(recs), base, size, perm, eBit, token)
                   case NewSegment =>
                     && (r == Ok ==> recs == Granted(old(recs), base, size, perm, eBit, token))
                     && (r == Ok ==> Ext(old(tbl.Tb()), tbl.Tb(), base))
                     && (r == NoLevelBlock ==> recs == old(recs) && Restored(old(tbl.Tb()), tbl.Tb()))
                     && (r == LostRecord ==> recs == old(recs) && !recordMem)
                     && (r == LostRecord ==> tbl.Represents(Granted(old(recs), base, size, perm, eBit, token)))
                     && r != Einval && Base(old(tbl.Tb()), base)
                     && (r == Ok ==> recordMem)
                     && (mem && tbl.expan && |old(tbl.bitmap)| + 6 < MAX_IDS ==>
                           r == if recordMem then Ok else LostRecord)
      ensures r == Einval ==> tbl.Tb() == old(tbl.Tb())
      ensures var base := va % Pow2(ias);
              r == Einval <==> || !argsOk || size == 0 || base % PAGE != 0 || base + size > ADDRESSES
                               || (&& Meets(old(recs), base, size)
                                   && !TakesSecond(old(recs), base, size, perm, eBit, token))
      ensures r == Ok || r == LostRecord ==>
                TableGains(old(tbl.Tb()), tbl.Tb(), va % Pow2(ias), size, perm, eBit, token)
      ensures r == Ok ==> RecordsGain(old(recs), recs, va % Pow2(ias), size, perm, eBit, token)
      ensures var base := va % Pow2(ias);
              r == Ok ==> && base in recs && recs[base].check == token.Some?
                          && (token.Some? ==> recs[base].count == (if Meets(old(recs), base, size) then 2 else 1)
                                              && recs[base].tok1 == token.value)
                          && (token.Some? && !Meets(old(recs), base, size) ==> recs[base].tok0 == token.value)
      ensures r != Ok ==> recs == old(recs)
      ensures Pushed(old(tbl.gather), tbl.gather, 8) && Told(old(tbl.Tb()), tbl.Tb(), va % Pow2(ias), tbl.gather, None)
    {
      hide Told, Inv, Ext, Base, Restored, LiveOk, TableGains, RecordsGain, Pow2;
      var base := va % Pow2(ias);
      ghost var tb := tbl.Tb();
      ToldSame(tbl.Tb(), base, tbl.gather, None);
      if !DataOk(base, size, argsOk) {
        return Einval;
      }
      var g := GrantCheck(recs, base, size - 1, perm, eBit, token.Some?);
      match g {
        case Refused =>
          return Einval;
        case SecondToken =>
          TokenKeeps(recs, base, AddToken(token.value));
          var done := tbl.TableToken(recs[base], AddToken(token.value), recs);
          SecondGains(tb, tbl.Tb(), recs, base, size, token.value);
          recs := recs[base := SegToken(AddToken(token.value), recs[base])];
          return Ok;
        case NewSegment =>
          var s := NewSeg(base, size, perm, eBit, token);
          InsertKeeps(recs, s);
          var filled := tbl.TableGrant(s, mem, recs);
          if !filled {
            return NoLevelBlock;
          }
          NewGains(tb, tbl.Tb(), recs, s, size, token);
          if !recordMem {
            NotBoth(tbl.Tb(), recs, s);
            return LostRecord;
          }
          recs := recs[base := s];
          return Ok;
      }
    }

    /** ummu_perm_ungrant. A size of 0 wraps to a range that no record has. */
    method Ungrant(va: nat, size: nat, token: Option<nat>, ghost t0: Option<Table>) returns (r: Result)
      requires Valid() && size < U64
      requires t0.Some? ==> Base(t0.value, va % Pow2(ias)) && Ext(t0.value, tbl.Tb(), va % Pow2(ias))
      modifies this, tbl
      ensures Valid()
      ensures var base := va % Pow2(ias);
              if base % PAGE != 0 || UngrantRule(old(recs), base, (size + U64 - 1) % U64, token) == Denied
              then r == Einval && recs == old(recs) && tbl.Tb() == old(tbl.Tb())
              else r == Ok && recs == Ungranted(old(recs), base, size, token)
      ensures t0.Some? && va % Pow2(ias) !in recs && r == Ok ==> Restored(t0.value, tbl.Tb())
      ensures var base := va % Pow2(ias);
              r == Ok <==> && base % PAGE == 0 && base in old(recs) && old(recs)[base].hi + 1 == base + size
                           && (token.Some? ==> && old(recs)[base].check
                                               && token.value in {old(recs)[base].tok0, old(recs)[base].tok1})
      ensures r == Ok ==> TableLoses(old(tbl.Tb()), tbl.Tb(), old(recs), va % Pow2(ias), size, token)
      ensures r == Ok ==> RecordsLose(old(recs), recs, va % Pow2(ias), size, token)
      ensures var base := va % Pow2(ias);
              r == Ok && base in recs ==>
                && old(recs)[base].count == 2 && token.Some?
                && recs[base].count == 1 && recs[base].tok0 == recs[base].tok1
                && multiset{old(recs)[base].tok0, old(recs)[base].tok1} == multiset{recs[base].tok0, token.value}
      ensures Pushed(old(tbl.gather), tbl.gather, 6) && Told(old(tbl.Tb()), tbl.Tb(), va % Pow2(ias), tbl.gather, None)
    {
      hide Told, Inv, Ext, Base, Restored, LiveOk, TableLoses, RecordsLose, Pow2;
      var base := va % Pow2(ias);
      ghost var tb := tbl.Tb();
      ToldSame(tbl.Tb(), base, tbl.gather, None);
      if base % PAGE != 0 {
        return Einval;
      }
      OneLess(size);
      if base in recs {
        RecordAt(recs, base);
      }
      var u := UngrantCheck(recs, base, (size + U64 - 1) % U64, token);
      match u {
        case Denied =>
          return Einval;
        case WholeSegment =>
          var done := tbl.TableUngrant(recs[base], recs, t0);
          DeleteKeeps(recs, base);
          WholeLoses(tb, tbl.Tb(), recs, base, size, token);
          recs := recs - {base};
          return Ok;
        case OneToken =>
          TokenKeeps(recs, base, RemoveToken(token.value));
          var done := tbl.TableToken(recs[base], RemoveToken(token.value), recs);
          TokenLoses(tb, tbl.Tb(), recs, base, size, token.value);
          recs := recs[base := SegToken(RemoveToken(token.value), recs[base])];
          return Ok;
      }
    }
  }

  lemma OneLess(size: nat)
    requires size < U64
    ensures (size + U64 - 1) % U64 == if size == 0 then U64 - 1 else size - 1
  {}

  /** One table does not represent both with and without a segment. */
  lemma NotBoth(tb: Table, live: Live, s: Seg)
    requires Inv(tb, live[s.lo := s], None, None) && Fits(live, s.lo, s)
    ensures !Inv(tb, live, None, None)
  {
    hide Inv, Permits;
    PermitsExact(tb, live[s.lo := s], s.lo, s.perm, s.eBit);
    assert SegPermits(live[s.lo := s], s.lo, s.lo, s.perm, s.eBit);
    forall x | x in live ensures !SegPermits(live, x, s.lo, s.perm, s.eBit) {
      assert Disjoint(live[x], s);
    }
    if Inv(tb, live, None, None) {
      PermitsExact(tb, live, s.lo, s.perm, s.eBit);
      assert false;
    }
  }

  // ---------------------------------------------------------------- runs

  /** A call: a grant, with whether its record is given memory, or an ungrant. */
  datatype Call =
    | GrantCall(va: nat, size: nat, perm: nat, eBit: nat, token: Option<nat>, argsOk: bool, mem: bool)
    | UngrantCall(va: nat, size: nat, token: Option<nat>)

  /** The records after a call, given only whether it succeeded. */
  ghost function After(recs: Live, width: nat, c: Call, ok: bool): Live {
    var base := c.va % Pow2(width);
    if !ok then recs
    else match c
         case GrantCall(_, size, perm, eBit, token, _, _) =>
           if size > 0 then Granted(recs, base, size, perm, eBit, token) else recs
         case UngrantCall(_, size, token) => Ungranted(recs, base, size, token)
  }

  ghost function Replay(recs: Live, width: nat, calls: seq<Call>, oks: seq<bool>): Live
    requires |calls| == |oks|
  {
    if calls == [] then recs
    else After(Replay(recs, width, calls[..|calls| - 1], oks[..|oks| - 1]), width, calls[|calls| - 1], oks[|oks| - 1])
  }

  /** How many grants let an access in after a call, given how many did before and whether the call succeeded. */
  function CallTimes(was: nat, width: nat, c: Call, ok: bool, u: Access): nat {
    if !ok then was
    else match c
         case GrantCall(va, size, perm, eBit, token, _, _) =>
           GrantTimes(was, u, va % Pow2(width), size, perm, eBit, token)
         case UngrantCall(va, size, token) => UngrantTimes(was, u, va % Pow2(width), size, token)
  }

  /** And after a run of calls: counted from the arguments of the successful calls alone. */
  function Uses(was: nat, width: nat, calls: seq<Call>, oks: seq<bool>, u: Access): nat
    requires |calls| == |oks|
  {
    if calls == [] then was
    else
      var n := |calls| - 1; CallTimes(Uses(was, width, calls[..n], oks[..n], u), width, calls[n], oks[n], u)
  }

  /** The records count every access as the calls do. */
  ghost predicate Counted(start: Live, recs: Live, width: nat, calls: seq<Call>, oks: seq<bool>)
    requires |calls| == |oks|
  {
    forall u :: Times(recs, u) == Uses(Times(start, u), width, calls, oks, u)
  }

  lemma CountedAt(start: Live, recs: Live, width: nat, calls: seq<Call>, oks: seq<bool>, u: Access)
    requires |calls| == |oks| && Counted(start, recs, width, calls, oks)
    ensures Times(recs, u) == Uses(Times(start, u), width, calls, oks, u)
  {}

  /** What the contracts say about the records: a call that fails leaves them, one that succeeds counts. */
  ghost predicate Steps(recs: Live, recs': Live, width: nat, c: Call, ok: bool) {
    if !ok then recs' == recs
    else match c
         case GrantCall(va, size, perm, eBit, token, _, _) =>
           RecordsGain(recs, recs', va % Pow2(width), size, perm, eBit, token)
         case UngrantCall(va, size, token) => RecordsLose(recs, recs', va % Pow2(width), size, token)
  }

  lemma CountedNext(start: Live, recs: Live, recs': Live, width: nat, calls: seq<Call>, oks: seq<bool>, c: Call,
                    ok: bool)
    requires |calls| == |oks| && Counted(start, recs, width, calls, oks) && Steps(recs, recs', width, c, ok)
    ensures Counted(start, recs', width, calls + [c], oks + [ok])
  {
    hide Times, GrantTimes, UngrantTimes, Pow2;
    forall u ensures Times(recs', u) == Uses(Times(start, u), width, calls + [c], oks + [ok], u) {
      assert (calls + [c])[..|calls|] == calls && (oks + [ok])[..|oks|] == oks;
    }
  }

  /** One call. */
  method Do(t: PermTable, c: Call) returns (ok: bool)
    requires t.Valid() && c.size < U64
    modifies t, t.tbl
    ensures t.Valid() && t.recs == After(old(t.recs), t.ias, c, ok) && Steps(old(t.recs), t.recs, t.ias, c, ok)
  {
    hide Inv, RecsOk, Ext, Base, Restored, Pushed, Told, TableGains, TableLoses, RecordsGain, RecordsLose, Meets,
         TakesSecond, Pow2;
    var r: Result;
    match c {
      case GrantCall(va, size, perm, eBit, token, argsOk, mem) =>
        r := t.Grant(va, size, perm, eBit, token, argsOk, mem, true);
      case UngrantCall(va, size, token) => r := t.Ungrant(va, size, token, None);
    }
    ok := r == Ok;
  }

  /** The records are those that the successful calls leave, and count every access as the calls do. */
  ghost predicate Went(start: Live, recs: Live, width: nat, calls: seq<Call>, oks: seq<bool>) {
    |oks| == |calls| && recs == Replay(start, width, calls, oks) && Counted(start, recs, width, calls, oks)
  }

  /** One call after the other. */
  method DoAll(t: PermTable, calls: seq<Call>) returns (oks: seq<bool>)
    requires t.Valid() && forall i :: 0 <= i < |calls| ==> calls[i].size < U64
    modifies t, t.tbl
    ensures t.Valid() && Went(old(t.recs), t.recs, t.ias, calls, oks)
  {
    oks := [];
    ghost var start := t.recs;
    RunStart(start, t.ias, calls);
    hide Inv, RecsOk, Went, Steps, After, Pow2;
    for k := 0 to |calls|
      invariant t.Valid() && Went(start, t.recs, t.ias, calls[..k], oks)
    {
      ghost var was := t.recs;
      var ok := Do(t, calls[k]);
      RunNext(start, was, t.recs, t.ias, calls, k, oks, ok);
      oks := oks + [ok];
    }
    assert calls[..|calls|] == calls;
  }

  /** Any run of calls, with level blocks refused at any point: the table permits exactly the segments
      that the successful calls leave, and those stay disjoint; and it lets in exactly the accesses that the
      successful calls grant more often than they take them back. */
  method Run(t: PermTable, calls: seq<Call>) returns (oks: seq<bool>)
    requires t.Valid() && forall i :: 0 <= i < |calls| ==> calls[i].size < U64
    modifies t, t.tbl
    ensures |oks| == |calls| && t.Valid() && t.recs == Replay(old(t.recs), t.ias, calls, oks)
    ensures forall a, perm, eBit :: Permits(t.tbl.Tb(), a, perm, eBit) <==> LivePermits(t.recs, a, perm, eBit)
    ensures forall u :: Admits(t.tbl.Tb(), u) <==> Uses(Times(old(t.recs), u), t.ias, calls, oks, u) > 0
  {
    ghost var start := t.recs;
    hide Inv, RecsOk, Permits, LivePermits, Admits, Counted, Times, Uses, Replay, Pow2;
    oks := DoAll(t, calls);
    RunMeans(t.tbl.Tb(), start, t.recs, t.ias, calls, oks);
  }

  lemma RunStart(start: Live, width: nat, calls: seq<Call>)
    ensures Went(start, start, width, calls[..0], [])
  {}

  lemma RunNext(start: Live, recs: Live, recs': Live, width: nat, calls: seq<Call>, k: nat, oks: seq<bool>, ok: bool)
    requires k < |calls| && Went(start, recs, width, calls[..k], oks) && Steps(recs, recs', width, calls[k], ok)
    requires recs' == After(recs, width, calls[k], ok)
    ensures Went(start, recs', width, calls[..k + 1], oks + [ok])
  {
    hide Counted, Steps, After, Pow2;
    assert calls[..k] + [calls[k]] == calls[..k + 1];
    assert calls[..k + 1][..k] == calls[..k] && (oks + [ok])[..k] == oks;
    CountedNext(start, recs, recs', width, calls[..k], oks, calls[k], ok);
  }

  lemma RunMeans(tb: Table, start: Live, recs: Live, width: nat, calls: seq<Call>, oks: seq<bool>)
    requires |calls| == |oks| && Inv(tb, recs, None, None) && RecsOk(recs) && Counted(start, recs, width, calls, oks)
    ensures forall a, perm, eBit :: Permits(tb, a, perm, eBit) <==> LivePermits(recs, a, perm, eBit)
    ensures forall u :: Admits(tb, u) <==> Uses(Times(start, u), width, calls, oks, u) > 0
  {
    hide Inv, RecsOk, Permits, LivePermits, Admits, Counted, Times, Uses;
    forall u ensures Admits(tb, u) <==> Uses(Times(start, u), width, calls, oks, u) > 0 {
      AdmitsExact(tb, recs, u);
      CountedAt(start, recs, width, calls, oks, u);
    }
    forall a, perm, eBit ensures Permits(tb, a, perm, eBit) <==> LivePermits(recs, a, perm, eBit) {
      PermitsExact(tb, recs, a, perm, eBit);
    }
  }

  /** Granting a new segment and ungranting it leaves the table as it was. */
  method GrantUngrant(t: PermTable, va: nat, size: nat, perm: nat, eBit: nat, token: Option<nat>, mem: bool)
    returns (granted: bool)
    requires t.Valid() && size < U64
    modifies t, t.tbl
    ensures t.Valid()
    ensures granted ==> t.recs == old(t.recs) && Restored(old(t.tbl.Tb()), t.tbl.Tb())
    ensures var base := va % Pow2(t.ias);
            !granted ==> || !DataOk(base, size, true)
                         || GrantRule(old(t.recs), base, size - 1, perm, eBit, token.Some?) != NewSegment
                         || Restored(old(t.tbl.Tb()), t.tbl.Tb())
  {
    hide Inv, Ext, Base, Restored, Pushed, Pow2, Told;
    var base := va % Pow2(t.ias);
    if base in t.recs {
      TakenNotNew(t.recs, base, size, perm, eBit, token.Some?);
      return false;
    }
    ghost var tb := t.tbl.Tb();
    if size > 0 {
      NewUndone(t.recs, base, size, perm, eBit, token);
    }
    hide RecsOk, GrantRule, UngrantRule, Granted, Ungranted;
    var r := t.Grant(va, size, perm, eBit, token, true, mem, true);
    if r != Ok {
      return false;
    }
    r := t.Ungrant(va, size, None, Some(tb));
    return true;
  }

  /** On values: ungranting what a new grant added leaves the records as they were. */
  lemma NewUndone(recs: Live, base: nat, size: nat, perm: nat, eBit: nat, token: Option<nat>)
    requires base !in recs && 0 < size < U64
    ensures GrantRule(recs, base, size - 1, perm, eBit, token.Some?) != SecondToken
    ensures GrantRule(recs, base, size - 1, perm, eBit, token.Some?) == NewSegment ==>
              var r := Granted(recs, base, size, perm, eBit, token);
              UngrantRule(r, base, (size + U64 - 1) % U64,
                          None) == WholeSegment && Ungranted(r, base, size, None) == recs
  {
    assert (size + U64 - 1) % U64 == size - 1;
  }

  lemma TakenNotNew(recs: Live, base: nat, size: nat, perm: nat, eBit: nat, checked: bool)
    requires RecsOk(recs) && base in recs
    ensures size > 0 ==> GrantRule(recs, base, size - 1, perm, eBit, checked) != NewSegment
  {}
}
