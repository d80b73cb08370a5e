/** What a set of records, and a table, mean to somebody who uses an address with a permission and a token. The
    number of grants that let an access in is counted from the calls alone; records and table must agree with it. */
module PermMeaning {
  import opened Arith
  import opened Basics
  import opened MaptModel
  import opened MaptInv
  import opened MaptPieces
  import opened MaptToken
  import opened MaptTheorems
  import opened SegMng

  /** An access: an address, the permission and e-bit it counts on, and the token presented with it, if any. */
  datatype Access = Access(a: nat, perm: nat, eBit: nat, tok: Option<nat>)

  // ---------------------------------------------------------------- counted from the calls

  /** A grant of `[base, base + size)` lets the access in. Without a token it lets every token in. */
  predicate LetsIn(u: Access, base: nat, size: nat, perm: nat, eBit: nat, token: Option<nat>) {
    base <= u.a < base + size && u.perm == perm && u.eBit == eBit && (token.None? || u.tok == token)
  }

  /** How many grants let the access in after one more grant. */
  function GrantTimes(was: nat, u: Access, base: nat, size: nat, perm: nat, eBit: nat, token: Option<nat>): nat {
    if LetsIn(u, base, size, perm, eBit, token) then was + 1 else was
  }

  /** And after an ungrant: without a token all grants of the range end, with one a grant of that token. */
  function UngrantTimes(was: nat, u: Access, base: nat, size: nat, token: Option<nat>): nat {
    if !(base <= u.a < base + size) then was
    else if token.None? then 0
    else if u.tok == token && was > 0 then was - 1
    else was
  }

  // ---------------------------------------------------------------- the records

  /** How often a segment lets an access in: unchecked once, checked once for each of its tokens presented. */
  function SegTimes(s: Seg, u: Access): nat {
    if !Within(s, u.a) || s.perm != u.perm || s.eBit != u.eBit then 0
    else if !s.check then 1
    else (if u.tok == Some(s.tok0) then 1 else 0) + (if s.count == MAX_TOKENS && u.tok == Some(s.tok1) then 1 else 0)
  }

  ghost function Times(live: Live, u: Access): nat {
    if exists x :: x in live && SegTimes(live[x], u) > 0 then
      var x :| x in live && SegTimes(live[x], u) > 0; SegTimes(live[x], u)
    else 0
  }

  lemma TimesAt(live: Live, x: nat, u: Access)
    requires LiveOk(live) && x in live && Within(live[x], u.a)
    ensures Times(live, u) == SegTimes(live[x], u)
  {
    forall y | y in live && y != x ensures SegTimes(live[y], u) == 0 {
      assert Disjoint(live[x], live[y]);
    }
  }

  lemma TimesNone(live: Live, u: Access)
    requires forall x :: x in live ==> !Within(live[x], u.a)
    ensures Times(live, u) == 0
  {}

  /** Records that differ in a segment away from the address mean the same there. */
  lemma TimesSame(live: Live, live': Live, x: nat, u: Access)
    requires LiveOk(live) && LiveOk(live')
    requires forall y :: y != x ==> (y in live <==> y in live') && (y in live ==> live'[y] == live[y])
    requires (x in live ==> !Within(live[x], u.a)) && (x in live' ==> !Within(live'[x], u.a))
    ensures Times(live, u) == Times(live', u)
  {
    hide Times, SegTimes, LiveOk;
    if y :| y in live && Within(live[y], u.a) {
      TimesAt(live, y, u);
      TimesAt(live', y, u);
    } else {
      TimesNone(live, u);
      assert forall y :: y in live' ==> !Within(live'[y], u.a);
      TimesNone(live', u);
    }
  }

  /** A new segment. */
  lemma InsertTimes(recs: Live, s: Seg, size: nat, token: Option<nat>, u: Access)
    requires s.hi + 1 == s.lo + size
    requires RecsOk(recs) && Fits(recs, s.lo, s) && RecsOk(recs[s.lo := s])
    requires s.check == token.Some? && (s.check ==> s.count == 1 && s.tok0 == token.value)
    ensures Times(recs[s.lo := s], u) == GrantTimes(Times(recs, u), u, s.lo, size, s.perm, s.eBit, token)
  {
    hide Times;
    if Within(s, u.a) {
      forall x | x in recs ensures !Within(recs[x], u.a) {
        assert Disjoint(recs[x], s);
      }
      TimesNone(recs, u);
      TimesAt(recs[s.lo := s], s.lo, u);
    } else {
      TimesSame(recs, recs[s.lo := s], s.lo, u);
    }
  }

  /** A second token. */
  lemma AddTimes(recs: Live, x: nat, size: nat, tok: nat, u: Access)
    requires x in recs && recs[x].hi + 1 == x + size
    requires RecsOk(recs) && x in recs && recs[x].check && recs[x].count == 1
    requires RecsOk(recs[x := SegToken(AddToken(tok), recs[x])])
    ensures var s := recs[x];
            Times(recs[x := SegToken(AddToken(tok), s)], u)
            == GrantTimes(Times(recs, u), u, x, size, s.perm, s.eBit, Some(tok))
  {
    hide Times;
    var recs' := recs[x := SegToken(AddToken(tok), recs[x])];
    if Within(recs[x], u.a) {
      TimesAt(recs, x, u);
      TimesAt(recs', x, u);
    } else {
      TimesSame(recs, recs', x, u);
    }
  }

  /** One of two tokens taken away. */
  lemma RemoveTimes(recs: Live, x: nat, size: nat, tok: nat, u: Access)
    requires x in recs && recs[x].hi + 1 == x + size
    requires RecsOk(recs) && x in recs && recs[x].check && recs[x].count == MAX_TOKENS
    requires (tok == recs[x].tok0 || tok == recs[x].tok1) && RecsOk(recs[x := SegToken(RemoveToken(tok), recs[x])])
    ensures Times(recs[x := SegToken(RemoveToken(tok), recs[x])], u)
            == UngrantTimes(Times(recs, u), u, x, size, Some(tok))
  {
    hide Times;
    var recs' := recs[x := SegToken(RemoveToken(tok), recs[x])];
    if Within(recs[x], u.a) {
      TimesAt(recs, x, u);
      TimesAt(recs', x, u);
    } else {
      TimesSame(recs, recs', x, u);
    }
  }

  /** A segment removed, without a token or by its only one. */
  lemma DeleteTimes(recs: Live, x: nat, size: nat, token: Option<nat>, u: Access)
    requires x in recs && recs[x].hi + 1 == x + size
    requires RecsOk(recs) && x in recs && RecsOk(recs - {x})
    requires token.Some? ==> recs[x].check && recs[x].count == 1 && token.value == recs[x].tok0
    ensures Times(recs - {x}, u) == UngrantTimes(Times(recs, u), u, x, size, token)
  {
    hide Times;
    if Within(recs[x], u.a) {
      TimesAt(recs, x, u);
      forall y | y in recs - {x} ensures !Within((recs - {x})[y], u.a) {
        assert Disjoint(recs[x], recs[y]);
      }
      TimesNone(recs - {x}, u);
    } else {
      TimesSame(recs, recs - {x}, x, u);
    }
  }

  // ---------------------------------------------------------------- the table

  /** Node `(id, i)` lets the access in. */
  predicate AdmitsAt(tb: Table, id: nat, i: nat, u: Access) {
    var n := N(tb, id, i);
    && PermitsAt(tb, id, i, u.a) && n.perm == u.perm && n.eBit == u.eBit
    && (!n.check || u.tok == Some(n.tok0) || u.tok == Some(n.tok1))
  }

  ghost predicate Admits(tb: Table, u: Access) {
    exists id, i :: AdmitsAt(tb, id, i, u)
  }

  /** The table lets in exactly what the records count at least once. */
  lemma AdmitsExact(tb: Table, recs: Live, u: Access)
    requires Inv(tb, recs, None, None) && RecsOk(recs)
    ensures Admits(tb, u) <==> Times(recs, u) > 0
  {
    hide N, Inv, PermitsAt;
    if Admits(tb, u) {
      var id, i :| AdmitsAt(tb, id, i, u);
      PermitsOnly(tb, recs, id, i, u.a);
      TimesAt(recs, N(tb, id, i).seg, u);
    }
    if Times(recs, u) > 0 {
      var x :| x in recs && SegTimes(recs[x], u) > 0;
      var id, i := PermitsAll(tb, recs, x, u.a);
      assert AdmitsAt(tb, id, i, u);
    }
  }

  // ---------------------------------------------------------------- one call

  /** The range of a call meets a recorded segment. */
  ghost predicate Meets(recs: Live, base: nat, size: nat) {
    exists x :: x in recs && recs[x].lo < base + size && base <= recs[x].hi
  }

  /** It is a recorded segment that has one token and may be given another: both sides check tokens and
      permission and e-bit are the same. */
  predicate TakesSecond(recs: Live, base: nat, size: nat, perm: nat, eBit: nat, token: Option<nat>) {
    && base in recs && recs[base].hi + 1 == base + size && token.Some?
    && recs[base].check && recs[base].count == 1 && recs[base].perm == perm && recs[base].eBit == eBit
  }

  /** To the table a grant adds exactly the accesses, and the permitted addresses, that were asked for. */
  ghost predicate TableGains(tb: Table, tb': Table, base: nat, size: nat, perm: nat, eBit: nat, token: Option<nat>) {
    && (forall u :: Admits(tb', u) <==> Admits(tb, u) || LetsIn(u, base, size, perm, eBit, token))
    && (forall a: nat, p: nat, e: nat :: Permits(tb', a, p, e) <==>
          Permits(tb, a, p, e) || (base <= a < base + size && p == perm && e == eBit))
  }

  ghost predicate RecordsGain(recs: Live, recs': Live, base: nat, size: nat, perm: nat, eBit: nat, token: Option<nat>) {
    forall u :: Times(recs', u) == GrantTimes(Times(recs, u), u, base, size, perm, eBit, token)
  }

  /** From the table an ungrant takes exactly the accesses that no grant is left for. The addresses of the range
      stay permitted exactly if a token is left. */
  ghost predicate TableLoses(tb: Table, tb': Table, recs: Live, base: nat, size: nat, token: Option<nat>) {
    && (forall u :: Admits(tb', u) <==> UngrantTimes(Times(recs, u), u, base, size, token) > 0)
    && (forall a: nat, p: nat, e: nat :: Permits(tb', a, p, e) <==>
          && Permits(tb, a, p, e)
          && (base <= a < base + size ==> token.Some? && base in recs && recs[base].count == MAX_TOKENS))
  }

  ghost predicate RecordsLose(recs: Live, recs': Live, base: nat, size: nat, token: Option<nat>) {
    forall u :: Times(recs', u) == UngrantTimes(Times(recs, u), u, base, size, token)
  }

  /** Who is let in follows from the counts. */
  lemma GainsFromTimes(tb: Table, tb': Table, recs: Live, recs': Live, base: nat, size: nat, perm: nat, eBit: nat,
                       token: Option<nat>)
    requires Inv(tb, recs, None, None) && RecsOk(recs) && Inv(tb', recs', None, None) && RecsOk(recs')
    requires RecordsGain(recs, recs', base, size, perm, eBit, token)
    ensures forall u :: Admits(tb', u) <==> Admits(tb, u) || LetsIn(u, base, size, perm, eBit, token)
  {
    hide Inv, RecsOk, Admits, Times, LetsIn;
    forall u ensures Admits(tb', u) <==> Admits(tb, u) || LetsIn(u, base, size, perm, eBit, token) {
      AdmitsExact(tb, recs, u);
      AdmitsExact(tb', recs', u);
    }
  }

  /** A new segment in table and records. */
  lemma NewGains(tb: Table, tb': Table, recs: Live, s: Seg, size: nat, token: Option<nat>)
    requires s.hi + 1 == s.lo + size
    requires Inv(tb, recs, None, None) && RecsOk(recs) && Fits(recs, s.lo, s)
    requires Inv(tb', recs[s.lo := s], None, None) && RecsOk(recs[s.lo := s])
    requires s.check == token.Some? && (s.check ==> s.count == 1 && s.tok0 == token.value)
    ensures RecordsGain(recs, recs[s.lo := s], s.lo, size, s.perm, s.eBit, token)
    ensures TableGains(tb, tb', s.lo, size, s.perm, s.eBit, token)
  {
    hide Inv, RecsOk, Admits, Permits, Times, LetsIn, Fits, GrantTimes;
    forall u
      ensures Times(recs[s.lo := s], u) == GrantTimes(Times(recs, u), u, s.lo, size, s.perm, s.eBit, token)
    {
      InsertTimes(recs, s, size, token, u);
    }
    GainsFromTimes(tb, tb', recs, recs[s.lo := s], s.lo, size, s.perm, s.eBit, token);
    forall a: nat, p: nat, e: nat
      ensures Permits(tb', a, p, e) <==> Permits(tb, a, p, e) || (s.lo <= a < s.lo + size && p == s.perm && e == s.eBit)
    {
      GrantAddsExactly(tb, tb', recs, s, a, p, e);
    }
  }

  /** Records that differ in tokens only permit the same addresses. */
  lemma TokenPermits(tb: Table, tb': Table, recs: Live, x: nat, op: TokenOp, a: nat, perm: nat, eBit: nat)
    requires x in recs && Inv(tb, recs, None, None) && Inv(tb', recs[x := SegToken(op, recs[x])], None, None)
    ensures Permits(tb', a, perm, eBit) <==> Permits(tb, a, perm, eBit)
    ensures Within(recs[x], a) && perm == recs[x].perm && eBit == recs[x].eBit ==> Permits(tb, a, perm, eBit)
  {
    hide Inv, Permits;
    var recs' := recs[x := SegToken(op, recs[x])];
    PermitsExact(tb, recs, a, perm, eBit);
    PermitsExact(tb', recs', a, perm, eBit);
    assert forall y :: SegPermits(recs', y, a, perm, eBit) <==> SegPermits(recs, y, a, perm, eBit);
    assert Within(recs[x], a) && perm == recs[x].perm && eBit == recs[x].eBit ==> SegPermits(recs, x, a, perm, eBit);
  }

  lemma RecordAt(recs: Live, x: nat)
    requires RecsOk(recs) && x in recs
    ensures recs[x].lo == x <= recs[x].hi < ADDRESSES
  {}

  /** A second token in table and records. */
  lemma SecondGains(tb: Table, tb': Table, recs: Live, x: nat, size: nat, tok: nat)
    requires x in recs && recs[x].hi + 1 == x + size
    requires Inv(tb, recs, None, None) && RecsOk(recs) && x in recs && recs[x].check && recs[x].count == 1
    requires var recs' := recs[x := SegToken(AddToken(tok), recs[x])]; Inv(tb', recs', None, None) && RecsOk(recs')
    ensures var s := recs[x]; var recs' := recs[x := SegToken(AddToken(tok), s)];
            && RecordsGain(recs, recs', x, size, s.perm, s.eBit, Some(tok))
            && TableGains(tb, tb', x, size, s.perm, s.eBit, Some(tok))
  {
    var s, recs' := recs[x], recs[x := SegToken(AddToken(tok), recs[x])];
    hide Inv, RecsOk, Admits, Permits, Times, LetsIn, GrantTimes, SegToken;
    RecordAt(recs, x);
    forall u ensures Times(recs', u) == GrantTimes(Times(recs, u), u, x, size, s.perm, s.eBit, Some(tok)) {
      AddTimes(recs, x, size, tok, u);
    }
    GainsFromTimes(tb, tb', recs, recs', x, size, s.perm, s.eBit, Some(tok));
    forall a: nat, p: nat, e: nat
      ensures Permits(tb', a, p, e) <==> Permits(tb, a, p, e) || (x <= a < x + size && p == s.perm && e == s.eBit)
    {
      TokenPermits(tb, tb', recs, x, AddToken(tok), a, p, e);
    }
  }

  /** A segment removed from table and records. */
  lemma WholeLoses(tb: Table, tb': Table, recs: Live, x: nat, size: nat, token: Option<nat>)
    requires x in recs && recs[x].hi + 1 == x + size
    requires Inv(tb, recs, None, None) && RecsOk(recs) && x in recs
    requires Inv(tb', recs - {x}, None, None) && RecsOk(recs - {x})
    requires token.Some? ==> recs[x].check && recs[x].count == 1 && token.value == recs[x].tok0
    ensures RecordsLose(recs, recs - {x}, x, size, token)
    ensures TableLoses(tb, tb', recs, x, size, token)
  {
    hide Inv, RecsOk, Admits, Permits, Times, UngrantTimes;
    RecordAt(recs, x);
    forall u ensures Times(recs - {x}, u) == UngrantTimes(Times(recs, u), u, x, size, token) {
      DeleteTimes(recs, x, size, token, u);
    }
    forall u ensures Admits(tb', u) <==> UngrantTimes(Times(recs, u), u, x, size, token) > 0 {
      AdmitsExact(tb', recs - {x}, u);
    }
    forall a: nat, p: nat, e: nat ensures Permits(tb', a, p, e) <==> Permits(tb, a, p, e) && !(x <= a < x + size) {
      DeletePermits(tb, tb', recs, x, size, a, p, e);
    }
  }

  lemma DeletePermits(tb: Table, tb': Table, recs: Live, x: nat, size: nat, a: nat, perm: nat, eBit: nat)
    requires x in recs && recs[x].hi + 1 == x + size
    requires Inv(tb, recs, None, None) && Inv(tb', recs - {x}, None, None) && RecsOk(recs)
    ensures Permits(tb', a, perm, eBit) <==> Permits(tb, a, perm, eBit) && !(x <= a < x + size)
  {
    hide Inv, Permits;
    PermitsExact(tb, recs, a, perm, eBit);
    PermitsExact(tb', recs - {x}, a, perm, eBit);
    forall y | y in recs && y != x ensures SegPermits(recs, y, a, perm, eBit) ==> !Within(recs[x], a) {
      assert Disjoint(recs[x], recs[y]);
    }
    assert forall y :: SegPermits(recs - {x}, y, a, perm, eBit) <==> y != x && SegPermits(recs, y, a, perm, eBit);
  }

  /** One of two tokens taken from table and records. */
  lemma TokenLoses(tb: Table, tb': Table, recs: Live, x: nat, size: nat, tok: nat)
    requires x in recs && recs[x].hi + 1 == x + size
    requires Inv(tb, recs, None, None) && RecsOk(recs) && x in recs && recs[x].check && recs[x].count == MAX_TOKENS
    requires tok == recs[x].tok0 || tok == recs[x].tok1
    requires var recs' := recs[x := SegToken(RemoveToken(tok), recs[x])]; Inv(tb', recs', None, None) && RecsOk(recs')
    ensures RecordsLose(recs, recs[x := SegToken(RemoveToken(tok), recs[x])], x, size, Some(tok))
    ensures TableLoses(tb, tb', recs, x, size, Some(tok))
  {
    var recs' := recs[x := SegToken(RemoveToken(tok), recs[x])];
    hide Inv, RecsOk, Admits, Permits, Times, UngrantTimes, SegToken;
    RecordAt(recs, x);
    forall u ensures Times(recs', u) == UngrantTimes(Times(recs, u), u, x, size, Some(tok)) {
      RemoveTimes(recs, x, size, tok, u);
    }
    forall u ensures Admits(tb', u) <==> UngrantTimes(Times(recs, u), u, x, size, Some(tok)) > 0 {
      AdmitsExact(tb', recs', u);
    }
    forall a: nat, p: nat, e: nat ensures Permits(tb', a, p, e) <==> Permits(tb, a, p, e) {
      TokenPermits(tb, tb', recs, x, RemoveToken(tok), a, p, e);
    }
  }
}
