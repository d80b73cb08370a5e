/** Steps that change only the private state of the CPU that takes them. */
module McmdqLocal {
  import opened Ring
  import opened ValidMap
  import opened Mcmdq
  import opened McmdqInv
  import opened McmdqReserve
  import opened McmdqPublish
  import opened McmdqLock

  /** Moving between the reservation steps that need no shared change. */
  lemma Reserving(c: Config, sh: Shared, i: nat, t: Thread, t': Thread)
    requires ThreadInv(c, sh, i, t) && !InRange(t) && !InRange(t') && !Exclusive(t) && !Exclusive(t') && !t'.pc.Cas?
    requires !t'.pc.Idle? ==> Args(c, t.(pc := Load)) && t' == t.(pc := t'.pc, prod := t'.prod, cons := t'.cons)
    ensures ThreadInv(c, sh, i, t')
  {
    hide Idx, Wrp, Ovf, Ptr, HasSpace, RangeOk, ProgressOk, OwnerOk;
    FreeSame(c, sh, i, t, t');
  }

  lemma SpaceFound(c: Config, sh: Shared, i: nat, t: Thread)
    requires ThreadInv(c, sh, i, t) && t.pc.Check? && HasSpace(c.k, t.prod, t.cons, Total(t))
    ensures ThreadInv(c, sh, i, t.(pc := Cas))
  {
    hide Idx, Wrp, Ovf, Ptr, HasSpace;
  }

  lemma ReadExclusively(c: Config, sh: Shared, i: nat, t: Thread, v: nat)
    requires Legal(c) && Core(c, sh) && ThreadInv(c, sh, i, t) && t.pc.ExclRead? && CanRead(c, sh, v)
    ensures ThreadInv(c, sh, i, t.(cons := v, lc := |sh.executed|, pc := ExclWrite))
  {
    hide Idx, Wrp, Ovf, Ptr, HasSpace, RangeOk, ProgressOk, OwnerOk, MapOk, RingOk, LogOk;
    PtrFacts(c.k, |sh.executed|);
    FreeSame(c, sh, i, t, t.(cons := v, lc := |sh.executed|, pc := ExclWrite));
  }

  lemma WritingDone(c: Config, sh: Shared, i: nat, t: Thread)
    requires ThreadInv(c, sh, i, t) && t.pc.Write? && t.pos >= Total(t)
    ensures ThreadInv(c, sh, i, t.(pc := if t.sync then LockInc else Mark, walk := t.prod, pos := t.start))
  {
    hide Idx, Wrp, Ovf, HasSpace;
    var t' := t.(pc := if t.sync then LockInc else Mark, walk := t.prod, pos := t.start);
    assert Content(t') == Content(t) && Total(t') == Total(t);
    hide Content, Total;
    assert RangeOk(c, sh, i, t');
    assert ProgressOk(c, sh, t');
  }

  lemma Spinning(c: Config, sh: Shared, i: nat, t: Thread, seen: int)
    requires ThreadInv(c, sh, i, t) && LockOk(c, sh) && Legal(c)
    ensures t.pc.LockSpin? && seen == sh.lock >= 0 ==> ThreadInv(c, sh, i, t.(seen := seen, pc := LockCas))
    ensures t.pc.LockCas? ==> ThreadInv(c, sh, i, t.(pc := LockSpin))
  {
    hide Idx, Wrp, Ovf, Ptr, HasSpace;
    LockSign(c, sh);
    hide LockOk, Legal;
    assert Content(t.(seen := seen, pc := LockCas)) == Content(t) == Content(t.(pc := LockSpin));
    hide Content;
  }

  /** The walk ends exactly at the end of the range, where the pointers compare equal. */
  lemma MarkingDone(c: Config, sh: Shared, i: nat, t: Thread)
    requires Legal(c) && ThreadInv(c, sh, i, t) && t.pc.Mark? && t.walk == t.head
    ensures ThreadInv(c, sh, i, t.(pc := if t.owner then WaitOwner else AfterSync(t)))
  {
    hide Idx, Wrp, Ovf, Ptr, HasSpace;
    PtrInjective(c.k, t.pos, End(t));
    var t' := t.(pc := if t.owner then WaitOwner else AfterSync(t));
    assert Content(t') == Content(t) && Total(t') == Total(t);
    hide Content, Total;
    assert RangeOk(c, sh, i, t');
    assert ProgressOk(c, sh, t');
  }

  lemma OwnerTurn(c: Config, sh: Shared, i: nat, t: Thread)
    requires Legal(c) && Core(c, sh) && ThreadInv(c, sh, i, t) && t.pc.WaitOwner? && sh.ownerProd == t.prod
    ensures ThreadInv(c, sh, i, t.(pc := Close))
  {
    hide Idx, Wrp, Ovf, Ptr, HasSpace, MapOk, RingOk, LogOk, LockOk, Words;
    WaitPassed(c, sh, i, t);
    assert Content(t.(pc := Close)) == Content(t);
    hide Content;
  }

  // ---------------------------------------------------------------- waiting for the CMD_SYNC

  lemma SyncSnapshot(c: Config, sh: Shared, i: nat, t: Thread)
    requires Core(c, sh) && ThreadInv(c, sh, i, t) && t.pc.SyncLoad?
    ensures ThreadInv(c, sh, i, t.(cons := sh.cons, lc := sh.shadow, recent := false, ok := false,
                                   pc := if c.msi then MsiPoll else SyncCheck))
  {
    hide Idx, Wrp, Ovf, Ptr, HasSpace, MapOk, RingOk, LogOk, RangeOk, ProgressOk, OwnerOk;
    RangeEnd(c, sh, i, t);
    WaitSame(c, sh, i, t, t.(cons := sh.cons, lc := sh.shadow, recent := false, ok := false,
                             pc := if c.msi then MsiPoll else SyncCheck));
  }

  lemma SyncPtrIs(c: Config, sh: Shared, i: nat, t: Thread)
    requires Legal(c) && RangeOk(c, sh, i, t) && InRange(t) && t.sync
    ensures SyncPtr(c, t) == Ptr(c.k, End(t) - 1) && End(t) >= 1
    ensures End(t) <= |sh.log| && sh.log[End(t) - 1].cmd == Sync
    ensures IncProd(c.k, SyncPtr(c, t), 1) == Ptr(c.k, End(t))
  {
    hide Idx, Wrp, Ovf, Ptr, HasSpace, IncProd;
    IncPtr(c.k, t.start, |t.cmds|);
    IncPtr(c.k, End(t) - 1, 1);
  }

  /** With MSI polling, a cleared slot means the hardware has consumed the CMD_SYNC: nobody can have
      reused the slot, because the shadow cons has not passed the list. */
  lemma MsiExact(c: Config, sh: Shared, i: nat, t: Thread)
    requires Legal(c) && Core(c, sh) && ThreadInv(c, sh, i, t) && t.pc.MsiPoll?
    ensures Get(sh.buf, Idx(c.k, SyncPtr(c, t))) == Zeroed ==> End(t) <= |sh.executed|
  {
    hide Idx, Wrp, Ovf, Ptr, HasSpace, IncProd, SyncPtr, OwnerOk, LockOk, MapOk, SyncOk;
    SyncPtrIs(c, sh, i, t);
    PtrFacts(c.k, End(t) - 1);
  }

  lemma MsiSeen(c: Config, sh: Shared, i: nat, t: Thread)
    requires Legal(c) && Core(c, sh) && ThreadInv(c, sh, i, t) && t.pc.MsiPoll?
    requires Get(sh.buf, Idx(c.k, SyncPtr(c, t))) == Zeroed
    ensures ThreadInv(c, sh, i, t.(cons := IncProd(c.k, SyncPtr(c, t), 1), lc := End(t),
                                   recent := true, ok := true, pc := TryUnlock))
  {
    hide Idx, Wrp, Ovf, Ptr, HasSpace, IncProd, SyncPtr, MapOk, RingOk, LogOk, RangeOk, ProgressOk, OwnerOk, LockOk;
    MsiExact(c, sh, i, t);
    SyncPtrIs(c, sh, i, t);
    PtrFacts(c.k, End(t));
    WaitSame(c, sh, i, t, t.(cons := IncProd(c.k, SyncPtr(c, t), 1), lc := End(t),
                             recent := true, ok := true, pc := TryUnlock));
  }

  /** A read of the hardware's consumer pointer, by a loop that goes on or gives up. */
  lemma SyncReads(c: Config, sh: Shared, i: nat, t: Thread, v: nat, t': Thread)
    requires Legal(c) && Core(c, sh) && ThreadInv(c, sh, i, t) && CanRead(c, sh, v)
    requires t.pc.SyncRead? || t.pc.MsiPoll?
    requires t'.pc.TryUnlock? || (t'.pc.SyncCheck? && t.pc.SyncRead?)
    requires t' == t.(cons := v, lc := |sh.executed|, recent := true, pc := t'.pc)
    ensures ThreadInv(c, sh, i, t')
  {
    hide Idx, Wrp, Ovf, Ptr, HasSpace, MapOk, RingOk, LogOk, RangeOk, ProgressOk, OwnerOk;
    PtrFacts(c.k, |sh.executed|);
    WaitSame(c, sh, i, t, t');
  }

  /** The consumed test is exact for the CPU's CMD_SYNC, and never true of the initial snapshot. */
  lemma SyncTestExact(c: Config, sh: Shared, i: nat, t: Thread)
    requires Legal(c) && Core(c, sh) && ThreadInv(c, sh, i, t) && t.pc.SyncCheck?
    ensures Consumed(c.k, t.cons, SyncPtr(c, t)) <==> End(t) <= t.lc
    ensures End(t) <= t.lc ==> t.recent
  {
    hide Idx, Wrp, Ovf, Ptr, HasSpace, IncProd, SyncPtr, Consumed, MapOk, RingOk, LogOk, ProgressOk, OwnerOk, LockOk;
    SyncPtrIs(c, sh, i, t);
    PtrFacts(c.k, End(t) - 1);
    ConsumedExact(c.k, t.cons, SyncPtr(c, t), t.lc, End(t) - 1);
  }

  lemma SyncTested(c: Config, sh: Shared, i: nat, t: Thread)
    requires Legal(c) && Core(c, sh) && ThreadInv(c, sh, i, t) && t.pc.SyncCheck?
    ensures Consumed(c.k, t.cons, SyncPtr(c, t)) ==> ThreadInv(c, sh, i, t.(ok := true, pc := TryUnlock))
    ensures ThreadInv(c, sh, i, t.(pc := SyncRead))
  {
    hide Idx, Wrp, Ovf, Ptr, HasSpace, IncProd, SyncPtr, Consumed, MapOk, RingOk, LogOk, RangeOk, ProgressOk, OwnerOk,
         LockOk;
    SyncTestExact(c, sh, i, t);
    WaitSame(c, sh, i, t, t.(ok := true, pc := TryUnlock));
    WaitSame(c, sh, i, t, t.(pc := SyncRead));
  }

  lemma NotLast(c: Config, sh: Shared, i: nat, t: Thread)
    requires ThreadInv(c, sh, i, t) && t.pc.TryUnlock?
    ensures ThreadInv(c, sh, i, t.(pc := Unlock))
  {
    hide Idx, Wrp, Ovf, Ptr, HasSpace, RangeOk, ProgressOk, OwnerOk;
    WaitSame(c, sh, i, t, t.(pc := Unlock));
  }
}
