/** Steps on the private shared/exclusive lock and on the shadow cons it protects. */
module McmdqLock {
  import opened Basics
  import opened Ring
  import opened ValidMap
  import opened Mcmdq
  import opened McmdqInv
  import opened McmdqReserve
  import opened McmdqPublish

  lemma SubsetCard(s: set<nat>, n: nat)
    requires forall i :: i in s ==> i < n
    ensures |s| <= n
    decreases n
  {
    if n == 0 {
      assert s == {};
    } else {
      SubsetCard(s - {n - 1}, n - 1);
      assert |s| <= |s - {n - 1}| + 1;
    }
  }

  /** The sign of the lock word tells whether it is held exclusively: increments that hit the
      exclusively held lock cannot bring it back to zero. */
  lemma LockSign(c: Config, sh: Shared)
    requires Legal(c) && LockOk(c, sh)
    ensures sh.lock < 0 <==> sh.excl.Some?
  {
    SubsetCard(sh.late, c.cpus);
  }

  lemma Singleton(s: set<nat>, i: nat, j: nat)
    requires |s| == 1 && i in s && j in s
    ensures i == j
  {
    assert |s - {i}| == 0;
    assert s - {i} == {};
  }

  /** All parts of a CPU's condition except the two about the lock and the shadow cons. */
  lemma LockFrame(c: Config, sh: Shared, sh': Shared, j: nat, u: Thread)
    requires RangeOk(c, sh, j, u) && ProgressOk(c, sh, u) && OwnerOk(c, sh, j, u)
    requires sh'.log == sh.log && sh'.gather == sh.gather && sh'.handed == sh.handed && sh'.published == sh.published
    ensures RangeOk(c, sh', j, u) && ProgressOk(c, sh', u) && OwnerOk(c, sh', j, u)
  {
    LogSame(c, sh, sh', j, u);
    OwnerSame(c, sh, sh', j, u);
  }

  lemma CoreFrame(c: Config, sh: Shared, sh': Shared)
    requires Order(c, sh) && Words(c, sh) && MapOk(c, sh) && RingOk(c, sh) && LogOk(c, sh)
    requires sh' == sh.(lock := sh'.lock, holders := sh'.holders, excl := sh'.excl, late := sh'.late,
                        writer := sh'.writer, wc := sh'.wc)
    ensures Order(c, sh') && Words(c, sh') && MapOk(c, sh') && RingOk(c, sh') && LogOk(c, sh')
  {
    hide Idx, Wrp, Ptr;
  }

  /** A CPU that is not a holder and not the exclusive owner has no claim on the shadow cons. */
  lemma NotInvolved(c: Config, sh: Shared, sh': Shared, j: nat, u: Thread)
    requires RolesOk(sh, j, u) && SyncOk(c, sh, j, u) && !Holds(u) && !Exclusive(u)
    ensures SyncOk(c, sh', j, u)
  {
    hide Idx, Wrp;
  }

  /** While it waits for its CMD_SYNC, a CPU's range and owner conditions do not change. */
  lemma WaitSame(c: Config, sh: Shared, i: nat, t: Thread, t': Thread)
    requires Waiting(t) && Waiting(t')
    requires t' == t.(pc := t'.pc, cons := t'.cons, lc := t'.lc, recent := t'.recent, ok := t'.ok)
    requires RangeOk(c, sh, i, t) && ProgressOk(c, sh, t) && OwnerOk(c, sh, i, t)
    ensures RangeOk(c, sh, i, t') && ProgressOk(c, sh, t') && OwnerOk(c, sh, i, t')
  {
    hide Idx, Wrp, Ptr, HasSpace;
    assert Content(t') == Content(t) && Total(t') == Total(t);
    hide Content, Total;
  }

  /** While it reserves, a CPU has no range. */
  lemma FreeSame(c: Config, sh: Shared, i: nat, t: Thread, t': Thread)
    requires !InRange(t) && !InRange(t') && !t'.pc.Cas?
    requires ProgressOk(c, sh, t) && OwnerOk(c, sh, i, t)
    ensures RangeOk(c, sh, i, t') && ProgressOk(c, sh, t') && OwnerOk(c, sh, i, t')
  {
    hide Idx, Wrp, Ptr, HasSpace;
  }

  lemma StoreConsCore(c: Config, sh: Shared, v: nat, x: nat)
    requires Core(c, sh) && At(c.k, v, x) && v < U32 && sh.shadow <= x <= |sh.executed|
    ensures Core(c, StoreCons(sh, v, x))
  {
    hide Idx, Wrp, Ptr;
  }

  // ---------------------------------------------------------------- exclusive side

  function ExclTaken(sh: Shared, i: nat): Shared {
    sh.(lock := INT_MIN, excl := Some(i), late := {})
  }

  lemma TakeExcl(c: Config, sh: Shared, i: nat, t: Thread)
    requires Legal(c) && Core(c, sh) && ThreadInv(c, sh, i, t) && t.pc.NoSpace? && sh.lock == 0
    ensures sh.excl.None? && sh.holders == {} && sh.writer.None? && Core(c, ExclTaken(sh, i))
    ensures ThreadInv(c, ExclTaken(sh, i), i, t.(pc := ExclRead))
  {
    hide Idx, Wrp, Ovf, Ptr, HasSpace, MapOk, RingOk, LogOk, Order, Words;
    LockSign(c, sh);
    CoreFrame(c, sh, ExclTaken(sh, i));
  }

  lemma TakeExclOther(c: Config, sh: Shared, i: nat, j: nat, u: Thread)
    requires sh.excl.None? && ThreadInv(c, sh, j, u) && i != j
    ensures ThreadInv(c, ExclTaken(sh, i), j, u)
  {
    hide Idx, Wrp, Ovf, Ptr, HasSpace, RangeOk, ProgressOk, OwnerOk, SyncOk;
    var sh' := ExclTaken(sh, i);
    LockFrame(c, sh, sh', j, u);
    SyncSame(c, sh, sh', j, u);
  }

  lemma ExclStore(c: Config, sh: Shared, i: nat, t: Thread)
    requires Legal(c) && Core(c, sh) && ThreadInv(c, sh, i, t) && t.pc.ExclWrite?
    ensures Core(c, StoreCons(sh, t.cons, t.lc))
    ensures ThreadInv(c, StoreCons(sh, t.cons, t.lc), i, t.(pc := ExclUnlock))
    ensures sh.holders == {} && sh.excl == Some(i)
  {
    hide Idx, Wrp, Ovf, Ptr, HasSpace, MapOk, RingOk, LogOk, Order, Words, RangeOk, ProgressOk, OwnerOk;
    StoreConsCore(c, sh, t.cons, t.lc);
    LockFrame(c, sh, StoreCons(sh, t.cons, t.lc), i, t);
    FreeSame(c, StoreCons(sh, t.cons, t.lc), i, t, t.(pc := ExclUnlock));
  }

  lemma ExclStoreOther(c: Config, sh: Shared, i: nat, t: Thread, j: nat, u: Thread)
    requires sh.holders == {} && sh.excl == Some(i) && ThreadInv(c, sh, j, u) && i != j
    ensures ThreadInv(c, StoreCons(sh, t.cons, t.lc), j, u)
  {
    hide Idx, Wrp, Ovf, Ptr, HasSpace, RangeOk, ProgressOk, OwnerOk, SyncOk;
    var sh' := StoreCons(sh, t.cons, t.lc);
    LockFrame(c, sh, sh', j, u);
    NotInvolved(c, sh, sh', j, u);
  }

  function ExclDropped(sh: Shared): Shared {
    sh.(lock := 0, excl := None, late := {})
  }

  lemma DropExcl(c: Config, sh: Shared, i: nat, t: Thread)
    requires Legal(c) && Core(c, sh) && ThreadInv(c, sh, i, t) && t.pc.ExclUnlock?
    ensures Core(c, ExclDropped(sh)) && sh.excl == Some(i)
    ensures ThreadInv(c, ExclDropped(sh), i, t.(pc := Load))
  {
    hide Idx, Wrp, Ovf, Ptr, HasSpace, MapOk, RingOk, LogOk, Order, Words;
    CoreFrame(c, sh, ExclDropped(sh));
  }

  lemma DropExclOther(c: Config, sh: Shared, i: nat, j: nat, u: Thread)
    requires sh.excl == Some(i) && ThreadInv(c, sh, j, u) && i != j
    ensures ThreadInv(c, ExclDropped(sh), j, u)
  {
    hide Idx, Wrp, Ovf, Ptr, HasSpace, RangeOk, ProgressOk, OwnerOk, SyncOk;
    var sh' := ExclDropped(sh);
    LockFrame(c, sh, sh', j, u);
    SyncSame(c, sh, sh', j, u);
  }

  // ---------------------------------------------------------------- shared side

  predicate Locks(t: Thread) {
    t.pc.LockInc? || t.pc.LockCas?
  }

  lemma TakeSharedCore(c: Config, sh: Shared, i: nat, t: Thread)
    requires Legal(c) && Core(c, sh) && ThreadInv(c, sh, i, t) && Locks(t) && sh.lock >= 0 && i < c.cpus
    ensures Core(c, TakeShared(sh, i)) && sh.excl.None? && i !in sh.late
  {
    hide Idx, Wrp, Ovf, Ptr, HasSpace, MapOk, RingOk, LogOk, Order, Words, ProgressOk, OwnerOk, SyncOk;
    LockSign(c, sh);
    CoreFrame(c, sh, TakeShared(sh, i));
  }

  /** A new holder's list is not marked yet, so the hardware, the shadow cons and any value about to
      be stored are all before it. */
  lemma NewHolder(c: Config, sh: Shared, i: nat, t: Thread)
    requires Core(c, sh) && Args(c, t) && RangeOk(c, sh, i, t) && ProgressOk(c, sh, t) && Locks(t)
    ensures sh.shadow <= t.start && (sh.writer.Some? ==> sh.wc <= t.start)
  {
    hide Idx, Wrp, Ovf, Ptr, HasSpace, MapOk, RingOk, Words;
    assert !sh.log[t.start].done;
  }

  lemma StartMarking(c: Config, sh: Shared, i: nat, t: Thread)
    requires Locks(t) && RangeOk(c, sh, i, t) && ProgressOk(c, sh, t) && OwnerOk(c, sh, i, t)
    ensures var t' := t.(pc := Mark);
            RangeOk(c, sh, i, t') && ProgressOk(c, sh, t') && OwnerOk(c, sh, i, t')
  {
    hide Idx, Wrp, Ptr, HasSpace;
  }

  lemma TakeSharedSelf(c: Config, sh: Shared, i: nat, t: Thread)
    requires Legal(c) && Core(c, sh) && ThreadInv(c, sh, i, t) && Locks(t)
    requires sh.excl.None? && i !in sh.late
    ensures ThreadInv(c, TakeShared(sh, i), i, t.(pc := Mark))
  {
    hide Idx, Wrp, Ovf, HasSpace, MapOk, RingOk, LogOk, Order, Words, RangeOk, OwnerOk;
    NewHolder(c, sh, i, t);
    StartMarking(c, sh, i, t);
    LockFrame(c, sh, TakeShared(sh, i), i, t.(pc := Mark));
    assert t.sync by { assert ProgressOk(c, sh, t) && RangeOk(c, sh, i, t); RangeEnd(c, sh, i, t); }
    hide ProgressOk;
  }

  lemma RangeEnd(c: Config, sh: Shared, i: nat, t: Thread)
    requires RangeOk(c, sh, i, t) && InRange(t)
    ensures End(t) <= |sh.log|
  {
    hide Ptr, HasSpace;
  }

  lemma TakeSharedOther(c: Config, sh: Shared, i: nat, j: nat, u: Thread)
    requires ThreadInv(c, sh, j, u) && i != j
    ensures ThreadInv(c, TakeShared(sh, i), j, u)
  {
    hide Idx, Wrp, Ovf, Ptr, HasSpace, RangeOk, ProgressOk, OwnerOk, SyncOk;
    var sh' := TakeShared(sh, i);
    LockFrame(c, sh, sh', j, u);
    SyncSame(c, sh, sh', j, u);
  }

  function LateInc(sh: Shared, i: nat): Shared {
    sh.(lock := sh.lock + 1, late := sh.late + {i})
  }

  lemma IncLate(c: Config, sh: Shared, i: nat, t: Thread)
    requires Legal(c) && Core(c, sh) && ThreadInv(c, sh, i, t) && t.pc.LockInc? && sh.lock < 0 && i < c.cpus
    ensures Core(c, LateInc(sh, i))
    ensures ThreadInv(c, LateInc(sh, i), i, t.(pc := LockSpin))
  {
    hide Idx, Wrp, Ovf, Ptr, HasSpace, MapOk, RingOk, LogOk, Order, Words;
    LockSign(c, sh);
    CoreFrame(c, sh, LateInc(sh, i));
  }

  lemma IncLateOther(c: Config, sh: Shared, i: nat, j: nat, u: Thread)
    requires ThreadInv(c, sh, j, u) && i != j
    ensures ThreadInv(c, LateInc(sh, i), j, u)
  {
    hide Idx, Wrp, Ovf, Ptr, HasSpace, RangeOk, ProgressOk, OwnerOk, SyncOk;
    var sh' := LateInc(sh, i);
    LockFrame(c, sh, sh', j, u);
    SyncSame(c, sh, sh', j, u);
  }

  // ---------------------------------------------------------------- the last holder

  function LastOne(sh: Shared, i: nat, t: Thread): Shared {
    sh.(writer := Some(i), wc := t.lc)
  }

  /** A holder that reads 1 from the lock is the only holder, so nobody else is storing the shadow
      cons. */
  lemma BecomeWriter(c: Config, sh: Shared, i: nat, t: Thread)
    requires Legal(c) && Core(c, sh) && ThreadInv(c, sh, i, t) && t.pc.TryUnlock? && sh.lock == 1
    ensures sh.writer.None? && (forall j :: j in sh.holders ==> j == i)
    ensures Core(c, LastOne(sh, i, t))
    ensures ThreadInv(c, LastOne(sh, i, t), i, t.(pc := WriteCons))
  {
    hide Idx, Wrp, Ovf, Ptr, HasSpace, MapOk, RingOk, LogOk, Order, Words;
    LockSign(c, sh);
    forall j | j in sh.holders ensures j == i {
      Singleton(sh.holders, i, j);
    }
    CoreFrame(c, sh, LastOne(sh, i, t));
  }

  lemma BecomeWriterOther(c: Config, sh: Shared, i: nat, t: Thread, j: nat, u: Thread)
    requires sh.writer.None? && j !in sh.holders && ThreadInv(c, sh, j, u) && i != j
    ensures ThreadInv(c, LastOne(sh, i, t), j, u)
  {
    hide Idx, Wrp, Ovf, Ptr, HasSpace, RangeOk, ProgressOk, OwnerOk;
    LockFrame(c, sh, LastOne(sh, i, t), j, u);
  }

  lemma WriterStore(c: Config, sh: Shared, i: nat, t: Thread)
    requires Legal(c) && Core(c, sh) && ThreadInv(c, sh, i, t) && t.pc.WriteCons?
    ensures Core(c, StoreCons(sh, t.cons, t.lc)) && sh.shadow <= t.lc
    ensures ThreadInv(c, StoreCons(sh, t.cons, t.lc), i, t.(pc := UnlockWrote))
  {
    hide Idx, Wrp, Ovf, Ptr, HasSpace, MapOk, RingOk, LogOk, Order, Words, RangeOk, ProgressOk, OwnerOk;
    StoreConsCore(c, sh, t.cons, t.lc);
    LockFrame(c, sh, StoreCons(sh, t.cons, t.lc), i, t);
    WaitSame(c, StoreCons(sh, t.cons, t.lc), i, t, t.(pc := UnlockWrote));
  }

  lemma WriterStoreOther(c: Config, sh: Shared, i: nat, t: Thread, j: nat, u: Thread)
    requires Core(c, sh) && ThreadInv(c, sh, i, t) && t.pc.WriteCons?
    requires ThreadInv(c, sh, j, u) && i != j
    ensures ThreadInv(c, StoreCons(sh, t.cons, t.lc), j, u)
  {
    hide Idx, Wrp, Ovf, Ptr, HasSpace, RangeOk, ProgressOk, OwnerOk, MapOk, RingOk, LogOk, Order, Words;
    LockFrame(c, sh, StoreCons(sh, t.cons, t.lc), j, u);
  }

  lemma ReleaseShared(c: Config, sh: Shared, i: nat, t: Thread)
    requires Legal(c) && Core(c, sh) && ThreadInv(c, sh, i, t) && (t.pc.Unlock? || t.pc.UnlockWrote?)
    ensures Core(c, DropShared(sh, i))
    ensures ThreadInv(c, DropShared(sh, i), i, t.(pc := Idle))
  {
    hide Idx, Wrp, Ovf, Ptr, HasSpace, MapOk, RingOk, LogOk, Order, Words;
    CoreFrame(c, sh, DropShared(sh, i));
  }

  lemma DropSharedOther(c: Config, sh: Shared, i: nat, j: nat, u: Thread)
    requires ThreadInv(c, sh, j, u) && i != j
    ensures ThreadInv(c, DropShared(sh, i), j, u)
  {
    hide Idx, Wrp, Ovf, Ptr, HasSpace, RangeOk, ProgressOk, OwnerOk;
    LockFrame(c, sh, DropShared(sh, i), j, u);
  }
}
