/** The inductive invariant of the command-queue machine. It is a conjunction of facts about the
    shared words alone and, for every CPU, facts relating that CPU's private state to them. */
module McmdqInv {
  import opened Basics
  import opened Ring
  import opened ValidMap
  import opened Mcmdq

  // ---------------------------------------------------------------- shared words

  /** The counters are ordered, and nothing is reserved more than a lap ahead of the shadow cons. */
  predicate Order(c: Config, sh: Shared) {
    && sh.shadow <= |sh.executed| <= sh.published <= sh.gather <= |sh.log| <= sh.shadow + Size(c)
    && sh.handed <= sh.published && sh.gather <= sh.handed + Size(c)
    && (sh.published == sh.handed || sh.published == sh.gather)
  }

  /** Each word shows its counter, and the owned flag says whether a range is being gathered. */
  predicate Words(c: Config, sh: Shared) {
    && sh.prod == Ptr(c.k, |sh.log|) + (if sh.gather < |sh.log| then OVERFLOW_FLAG else 0)
    && At(c.k, sh.cons, sh.shadow) && sh.cons < U32
    && sh.ownerProd == Ptr(c.k, sh.handed)
    && sh.hwProd == Ptr(c.k, sh.published) + OVERFLOW_FLAG
    && sh.hwCons == Ptr(c.k, |sh.executed|)
  }

  /** Slot `x` of the window is marked valid in the map exactly when its lap has marked it. */
  predicate MapOk(c: Config, sh: Shared) {
    && |sh.valid| == Size(c)
    && (forall x :: 0 <= x < |sh.log| && |sh.log| <= x + Size(c) ==>
          sh.valid[Idx(c.k, x)] == (sh.log[x].done == (Wrp(c.k, x) == 0)))
    && (forall x :: |sh.log| <= x < Size(c) ==> !sh.valid[x])
  }

  /** The ring holds the written commands that the hardware has not consumed yet. */
  predicate RingOk(c: Config, sh: Shared) {
    && |sh.buf| == Size(c)
    && (forall x :: |sh.executed| <= x < |sh.log| && sh.log[x].written ==>
          sh.buf[Idx(c.k, x)] == sh.log[x].cmd)
  }

  /** Only written slots are marked, only marked slots are published, and what the hardware has
      executed is the log. */
  predicate LogOk(c: Config, sh: Shared) {
    && (forall x :: 0 <= x < |sh.log| ==> sh.log[x].who < c.cpus)
    && (forall x :: 0 <= x < |sh.log| && sh.log[x].done ==> sh.log[x].written)
    && (forall x :: 0 <= x < sh.published && x < |sh.log| ==> sh.log[x].done)
    && (forall x :: 0 <= x < |sh.executed| && x < |sh.log| ==> sh.executed[x] == sh.log[x].cmd)
  }

  /** The lock word counts the shared holders, or is negative while held exclusively. */
  ghost predicate LockOk(c: Config, sh: Shared) {
    && (forall i :: i in sh.holders ==> i < c.cpus)
    && (forall i :: i in sh.late ==> i < c.cpus)
    && (sh.excl.None? ==> sh.lock == |sh.holders| && sh.late == {})
    && (sh.excl.Some? ==> sh.lock == INT_MIN + |sh.late| && sh.holders == {})
    && (sh.writer.Some? ==> sh.writer.value in sh.holders && sh.wc <= |sh.executed|)
  }

  ghost predicate Core(c: Config, sh: Shared) {
    Order(c, sh) && Words(c, sh) && MapOk(c, sh) && RingOk(c, sh) && LogOk(c, sh) && LockOk(c, sh)
  }

  // ---------------------------------------------------------------- one CPU

  predicate InRange(t: Thread) {
    !(t.pc.Idle? || t.pc.Load? || t.pc.Check? || t.pc.Cas? || t.pc.NoSpace? || t.pc.ExclRead?
      || t.pc.ExclWrite? || t.pc.ExclUnlock? || t.pc.Spin?)
  }

  predicate Unmarked(t: Thread) {
    t.pc.Write? || t.pc.LockInc? || t.pc.LockSpin? || t.pc.LockCas?
  }

  /** The CPU is responsible for publishing the range being gathered. */
  predicate OwnerOpen(t: Thread) {
    t.owner && (Unmarked(t) || t.pc.Mark? || t.pc.WaitOwner? || t.pc.Close?)
  }

  /** The CPU is between "previous owner done" and "tell the next owner". */
  predicate Closing(t: Thread) {
    t.pc.Poll? || t.pc.Publish? || t.pc.HandOver?
  }

  predicate Waiting(t: Thread) {
    t.pc.SyncLoad? || t.pc.MsiPoll? || t.pc.SyncCheck? || t.pc.SyncRead? || t.pc.TryUnlock?
    || t.pc.WriteCons? || t.pc.UnlockWrote? || t.pc.Unlock?
  }

  /** The CPU holds the lock shared. */
  predicate Holds(t: Thread) {
    t.sync && (t.pc.Mark? || t.pc.WaitOwner? || t.pc.Close? || Closing(t) || Waiting(t))
  }

  predicate Exclusive(t: Thread) {
    t.pc.ExclRead? || t.pc.ExclWrite? || t.pc.ExclUnlock?
  }

  predicate Writer(t: Thread) {
    t.pc.WriteCons? || t.pc.UnlockWrote?
  }

  /** The private cons is one the CPU may store. */
  predicate HasCons(t: Thread) {
    (t.pc.SyncCheck? && t.recent) || t.pc.TryUnlock? || t.pc.WriteCons? || t.pc.UnlockWrote? || t.pc.Unlock?
  }

  function End(t: Thread): nat {
    t.start + Total(t)
  }

  predicate Args(c: Config, t: Thread) {
    !t.pc.Idle? ==> 1 <= Total(t) <= Size(c) && forall x :: 0 <= x < |t.cmds| ==> t.cmds[x].Op?
  }

  /** A reserved range belongs to the CPU and logs its list, contiguously and in order. */
  predicate RangeOk(c: Config, sh: Shared, i: nat, t: Thread) {
    && (t.pc.Cas? ==> HasSpace(c.k, t.prod, t.cons, Total(t)))
    && (InRange(t) ==>
          && End(t) <= |sh.log|
          && t.prod == Ptr(c.k, t.start) && t.head == Ptr(c.k, End(t))
          && forall x :: t.start <= x < End(t) ==>
               sh.log[x].who == i && sh.log[x].cmd == Content(t)[x - t.start])
  }

  /** How far the CPU has come in writing and marking its range. */
  predicate ProgressOk(c: Config, sh: Shared, t: Thread) {
    InRange(t) && End(t) <= |sh.log| ==>
      && (t.pc.Write? ==>
            && t.pos <= Total(t)
            && forall x :: t.start <= x < t.start + t.pos ==> sh.log[x].written)
      && (!t.pc.Write? ==> forall x :: t.start <= x < End(t) ==> sh.log[x].written)
      && (Unmarked(t) ==> forall x :: t.start <= x < End(t) ==> !sh.log[x].done)
      && (t.pc.LockInc? || t.pc.LockSpin? || t.pc.LockCas? ==>
            t.sync && t.walk == t.prod && t.pos == t.start)
      && (t.pc.Mark? ==>
            && t.start <= t.pos <= End(t) && t.walk == Ptr(c.k, t.pos)
            && (forall x :: t.start <= x < t.pos ==> sh.log[x].done)
            && (forall x :: t.pos <= x < End(t) ==> !sh.log[x].done))
      && (!Unmarked(t) && !t.pc.Mark? ==> forall x :: t.start <= x < End(t) ==> sh.log[x].done)
  }

  /** Owners. The CPU that reserved the first gathered slot is the open owner; the CPU that reserved
      the first slot not handed over yet is the closing one. */
  predicate OwnerOk(c: Config, sh: Shared, i: nat, t: Thread) {
    && (OwnerOpen(t) ==> t.start == sh.gather < |sh.log|)
    && (t.pc.WaitOwner? || t.pc.Close? || Closing(t) ==> t.owner)
    && (t.pc.Close? ==> sh.handed == sh.gather)
    && (Closing(t) ==>
          && t.start == sh.handed && t.closeEnd == sh.gather && End(t) <= sh.gather
          && t.close == Ptr(c.k, sh.gather))
    && (t.pc.Poll? ==>
          && t.start <= t.pos <= t.closeEnd && t.walk == Ptr(c.k, t.pos)
          && sh.published == sh.handed
          && forall x :: t.start <= x < t.pos && x < |sh.log| ==> sh.log[x].done)
    && (t.pc.Publish? ==>
          && sh.published == sh.handed
          && forall x :: t.start <= x < t.closeEnd && x < |sh.log| ==> sh.log[x].done)
    && (t.pc.HandOver? ==> sh.published == sh.gather)
    && (sh.gather < |sh.log| && sh.log[sh.gather].who == i ==> OwnerOpen(t))
    && (sh.handed < sh.gather && sh.handed < |sh.log| && sh.log[sh.handed].who == i ==> Closing(t))
  }

  predicate RolesOk(sh: Shared, i: nat, t: Thread) {
    && (i in sh.holders <==> Holds(t))
    && (sh.excl == Some(i) <==> Exclusive(t))
    && (i in sh.late ==> t.pc.LockSpin?)
    && (sh.writer == Some(i) <==> Writer(t))
    && (Waiting(t) ==> t.sync)
    && (t.pc.LockCas? ==> t.seen >= 0)
  }

  /** A holder of the shared lock: the shadow cons, and any value about to be stored in it, is at or
      before the first slot of its list. */
  predicate SyncOk(c: Config, sh: Shared, i: nat, t: Thread) {
    && (t.pc.ExclWrite? ==>
          At(c.k, t.cons, t.lc) && t.cons < U32 && sh.shadow <= t.lc <= |sh.executed|)
    && (Holds(t) && !t.pc.UnlockWrote? ==> sh.shadow <= t.start)
    && (sh.writer.Some? && sh.writer.value != i && Holds(t) ==>
          sh.wc <= t.start && (HasCons(t) ==> sh.wc <= t.lc))
    && (t.pc.SyncCheck? && !t.recent ==>
          At(c.k, t.cons, t.lc) && t.lc <= t.start && End(t) <= t.lc + Size(c))
    && (HasCons(t) ==> At(c.k, t.cons, t.lc) && t.cons < U32 && t.lc <= |sh.executed|)
    && (HasCons(t) && !t.pc.Unlock? ==> sh.shadow <= t.lc)
    && (t.pc.WriteCons? ==> sh.wc == t.lc)
    && (HasCons(t) && !t.pc.SyncCheck? && t.ok ==> End(t) <= t.lc)
    && (t.pc.MsiPoll? || t.pc.SyncCheck? || t.pc.SyncRead? ==> !t.ok)
    && (t.pc.MsiPoll? ==> c.msi)
  }

  predicate ThreadInv(c: Config, sh: Shared, i: nat, t: Thread) {
    && Args(c, t) && RangeOk(c, sh, i, t) && ProgressOk(c, sh, t) && OwnerOk(c, sh, i, t)
    && RolesOk(sh, i, t) && SyncOk(c, sh, i, t)
  }

  ghost predicate Inv(c: Config, s: State) {
    && Legal(c) && |s.ts| == c.cpus && Core(c, s.sh)
    && forall i :: 0 <= i < |s.ts| ==> ThreadInv(c, s.sh, i, s.ts[i])
  }

  // ---------------------------------------------------------------- what each part depends on

  lemma RolesSame(sh: Shared, sh': Shared, i: nat, t: Thread)
    requires RolesOk(sh, i, t)
    requires sh'.holders == sh.holders && sh'.excl == sh.excl && sh'.late == sh.late && sh'.writer == sh.writer
    ensures RolesOk(sh', i, t)
  {}

  lemma SyncSame(c: Config, sh: Shared, sh': Shared, i: nat, t: Thread)
    requires SyncOk(c, sh, i, t)
    requires sh'.shadow == sh.shadow && |sh'.executed| >= |sh.executed|
    requires sh'.writer == sh.writer && sh'.wc == sh.wc
    ensures SyncOk(c, sh', i, t)
  {
    hide Idx, Wrp;
  }

  lemma LogSame(c: Config, sh: Shared, sh': Shared, i: nat, t: Thread)
    requires RangeOk(c, sh, i, t) && ProgressOk(c, sh, t)
    requires sh'.log == sh.log
    ensures RangeOk(c, sh', i, t) && ProgressOk(c, sh', t)
  {
    hide Idx, Wrp, HasSpace, Ptr;
  }

  lemma OwnerSame(c: Config, sh: Shared, sh': Shared, i: nat, t: Thread)
    requires OwnerOk(c, sh, i, t)
    requires sh'.log == sh.log && sh'.gather == sh.gather && sh'.handed == sh.handed && sh'.published == sh.published
    ensures OwnerOk(c, sh', i, t)
  {
    hide Idx, Wrp, HasSpace, Ptr;
  }
}
