/** What every run of the multi-producer command queue guarantees. */
module McmdqTheorems {
  import opened Ring
  import opened ValidMap
  import opened Mcmdq
  import opened McmdqInv
  import opened McmdqReserve
  import opened McmdqPublish
  import opened McmdqLock
  import opened McmdqLocal
  import opened McmdqRuns

  /** The hardware executes the reserved commands in reservation order, each exactly once and only
      after it was written and marked: its history is a prefix of the log. */
  lemma ExecutedInOrder(c: Config, run: seq<State>, m: nat)
    requires Legal(c) && IsRun(c, run) && m < |run|
    ensures var sh := run[m].sh;
            && |sh.executed| <= sh.published <= |sh.log|
            && forall x :: 0 <= x < |sh.executed| ==> sh.executed[x] == sh.log[x].cmd
  {
    RunInv(c, run, m);
  }

  /** The published pointer never covers a slot whose command for the current lap is not in the ring
      and marked. */
  lemma PublishedIsReady(c: Config, run: seq<State>, m: nat, x: nat)
    requires Legal(c) && IsRun(c, run) && m < |run| && x < run[m].sh.published
    ensures var sh := run[m].sh;
            && x < |sh.log| && sh.log[x].done && sh.log[x].written
            && (|sh.executed| <= x ==> Get(sh.buf, Idx(c.k, x)) == sh.log[x].cmd)
  {
    hide Idx, Wrp, Ptr, ThreadInv, MapOk, LockOk, Words;
    RunInv(c, run, m);
  }

  /** The alternating valid bit is never misread: for any of the last `Size` reserved slots it reads
      as valid exactly when the slot has been marked in its own lap. */
  lemma ValidBitExact(c: Config, run: seq<State>, m: nat, x: nat)
    requires Legal(c) && IsRun(c, run) && m < |run|
    requires x < |run[m].sh.log| <= x + Size(c)
    ensures var sh := run[m].sh;
            && Idx(c.k, x) < |sh.valid|
            && (ValidFor(sh.valid, Idx(c.k, x), 1, Wrp(c.k, x)) <==> sh.log[x].done)
  {
    hide Idx, Wrp, Ptr, ThreadInv, RingOk, LockOk, Words, Order;
    RunInv(c, run, m);
    assert run[m].sh.valid[Idx(c.k, x)] == (run[m].sh.log[x].done == (Wrp(c.k, x) == 0));
  }

  /** No slot is reused before the hardware has consumed it. */
  lemma NoOverrun(c: Config, run: seq<State>, m: nat)
    requires Legal(c) && IsRun(c, run) && m < |run|
    ensures |run[m].sh.log| <= |run[m].sh.executed| + Size(c)
  {
    hide Idx, Wrp, Ptr, ThreadInv, RingOk, MapOk, LogOk, LockOk, Words;
    RunInv(c, run, m);
  }

  /** The space test on fresh copies is exact: a CPU goes on to reserve exactly if its list fits, and a CPU that
      waits for space leaves the wait exactly if some slot is free, or on its time-out. */
  lemma SpaceSeen(c: Config, run: seq<State>, m: nat, i: nat, env: Env)
    requires Legal(c) && IsRun(c, run) && m < |run| && i < |run[m].ts|
    ensures var sh, t := run[m].sh, run[m].ts[i]; var r := Step(c, sh, i, t, env);
            && (t.pc == Spin ==> r.Go? && r.t.prod == sh.prod && r.t.cons == sh.cons
                                 && r.t.pc == if |sh.log| < sh.shadow + Size(c) || env.timeout then Check else Spin)
            && (t.pc == Check && t.prod == sh.prod && t.cons == sh.cons ==>
                  r.Go? && r.t.pc == if |sh.log| + Total(t) <= sh.shadow + Size(c) then Cas else NoSpace)
  {
    var sh, t := run[m].sh, run[m].ts[i];
    hide IsRun, Core, ThreadInv, HasSpace, Full, Idx, Wrp, Ovf, Ptr, IncProd, Total;
    RunInv(c, run, m);
    SpaceWords(c, sh, Total(t));
  }

  /** At most one owner gathers and at most one owner publishes, and whenever there is a range to
      gather or to publish its owner exists. */
  lemma OwnersUnique(c: Config, run: seq<State>, m: nat, i: nat, j: nat)
    requires Legal(c) && IsRun(c, run) && m < |run| && i < |run[m].ts| && j < |run[m].ts|
    ensures OwnerOpen(run[m].ts[i]) && OwnerOpen(run[m].ts[j]) ==> i == j
    ensures Closing(run[m].ts[i]) && Closing(run[m].ts[j]) ==> i == j
  {
    hide Idx, Wrp, Ptr, RingOk, MapOk, LogOk, LockOk, Words, ProgressOk, RolesOk, SyncOk, HasSpace, Content;
    RunInv(c, run, m);
    var s := run[m];
    assert ThreadInv(c, s.sh, i, s.ts[i]) && ThreadInv(c, s.sh, j, s.ts[j]);
    if Closing(s.ts[i]) {
      assert s.sh.log[s.sh.handed].who == i;
    }
    if OwnerOpen(s.ts[i]) {
      assert s.sh.log[s.sh.gather].who == i;
    }
  }

  lemma OwnersExist(c: Config, run: seq<State>, m: nat)
    requires Legal(c) && IsRun(c, run) && m < |run|
    ensures var s := run[m];
            && (s.sh.gather < |s.sh.log| ==> exists i :: 0 <= i < |s.ts| && OwnerOpen(s.ts[i]))
            && (s.sh.handed < s.sh.gather ==> exists i :: 0 <= i < |s.ts| && Closing(s.ts[i]))
  {
    hide Idx, Wrp, Ptr, RingOk, MapOk, LockOk, Words, ProgressOk, RolesOk, SyncOk, RangeOk;
    RunInv(c, run, m);
    var s := run[m];
    if s.sh.gather < |s.sh.log| {
      var i := s.sh.log[s.sh.gather].who;
      assert ThreadInv(c, s.sh, i, s.ts[i]);
    }
    if s.sh.handed < s.sh.gather {
      var i := s.sh.log[s.sh.handed].who;
      assert ThreadInv(c, s.sh, i, s.ts[i]);
    }
  }

  /** Successive owners publish ranges that tile the reservation order: a publication starts where
      the previous one ended and covers at least the owner's own list. */
  lemma PublicationsTile(c: Config, s: State, i: nat, env: Env)
    requires Inv(c, s) && i < |s.ts| && s.ts[i].pc.Publish?
    ensures var n := Step(c, s.sh, i, s.ts[i], env);
            && n.Go? && s.ts[i].start == s.sh.published
            && s.sh.published < End(s.ts[i]) <= n.sh.published == s.sh.gather
            && At(c.k, n.sh.hwProd, n.sh.published)
  {
    hide Idx, Wrp, Ptr, SetFlag, RingOk, MapOk, LogOk, LockOk, Words, ProgressOk, RolesOk, SyncOk, RangeOk;
    FlagFacts(c.k, s.sh.gather);
    PtrFacts(c.k, s.sh.gather);
  }

  /** A CPU between its reservation and its return: its list occupies consecutive slots in order. */
  lemma ListContiguous(c: Config, run: seq<State>, m: nat, i: nat)
    requires Legal(c) && IsRun(c, run) && m < |run| && i < |run[m].ts| && InRange(run[m].ts[i])
    ensures var sh, t := run[m].sh, run[m].ts[i];
            && End(t) <= |sh.log|
            && forall x :: 0 <= x < |Content(t)| ==> sh.log[t.start + x].cmd == Content(t)[x]
  {
    hide Idx, Wrp, Ptr, RingOk, MapOk, LogOk, LockOk, Words, ProgressOk, RolesOk, SyncOk, OwnerOk, HasSpace;
    RunInv(c, run, m);
    var sh, t := run[m].sh, run[m].ts[i];
    assert ThreadInv(c, sh, i, t);
    forall x | 0 <= x < |Content(t)| ensures sh.log[t.start + x].cmd == Content(t)[x] {
      assert t.start <= t.start + x < End(t);
    }
  }

  /** While a CMD_SYNC issuer holds the shared lock, the shadow cons is at or before the first slot
      of its list (until it stores the shadow cons itself, as the last holder), so no reservation
      laps its list. */
  lemma HolderNotLapped(c: Config, run: seq<State>, m: nat, i: nat)
    requires Legal(c) && IsRun(c, run) && m < |run| && i < |run[m].ts|
    requires Holds(run[m].ts[i]) && !run[m].ts[i].pc.UnlockWrote?
    ensures run[m].sh.shadow <= run[m].ts[i].start
    ensures |run[m].sh.log| <= run[m].ts[i].start + Size(c)
  {
    hide Idx, Wrp, Ptr, RingOk, MapOk, LogOk, LockOk, Words, ProgressOk, RolesOk, OwnerOk, RangeOk;
    RunInv(c, run, m);
    assert ThreadInv(c, run[m].sh, i, run[m].ts[i]);
  }

  /** The CPU may store the shadow cons. */
  predicate MayStoreCons(t: Thread) {
    Exclusive(t) || Writer(t)
  }

  /** Stores to the shadow cons are mutually exclusive, and no CPU holds the lock shared while
      another holds it exclusively. */
  lemma ConsWritersExclude(c: Config, run: seq<State>, m: nat, i: nat, j: nat)
    requires Legal(c) && IsRun(c, run) && m < |run| && i < |run[m].ts| && j < |run[m].ts|
    ensures MayStoreCons(run[m].ts[i]) && MayStoreCons(run[m].ts[j]) ==> i == j
    ensures Exclusive(run[m].ts[i]) ==> !Holds(run[m].ts[j])
  {
    hide Idx, Wrp, Ptr, RingOk, MapOk, LogOk, Words, ProgressOk, SyncOk, OwnerOk, RangeOk, Order;
    RunInv(c, run, m);
    assert ThreadInv(c, run[m].sh, i, run[m].ts[i]) && ThreadInv(c, run[m].sh, j, run[m].ts[j]);
  }

  /** The CPU has ended its wait for the CMD_SYNC and is giving the lock back. */
  predicate Leaving(t: Thread) {
    t.pc.TryUnlock? || t.pc.WriteCons? || t.pc.UnlockWrote? || t.pc.Unlock?
  }

  /** A call that appended a CMD_SYNC and did not time out returns only after the hardware has
      executed its whole list, consecutively. */
  lemma SyncCompletes(c: Config, run: seq<State>, m: nat, i: nat)
    requires Legal(c) && IsRun(c, run) && m < |run| && i < |run[m].ts|
    requires Leaving(run[m].ts[i]) && run[m].ts[i].ok
    ensures var sh, t := run[m].sh, run[m].ts[i];
            && t.sync && End(t) <= |sh.executed|
            && sh.executed[t.start .. End(t)] == t.cmds + [Sync]
  {
    hide Idx, Wrp, Ptr, RingOk, MapOk, LockOk, Words, ProgressOk, OwnerOk, HasSpace, IsRun, At;
    RunInv(c, run, m);
    var sh, t := run[m].sh, run[m].ts[i];
    assert ThreadInv(c, sh, i, t);
    assert t.sync && End(t) <= |sh.executed| by { hide RangeOk, LogOk, Order; }
    hide SyncOk, RolesOk, Order;
    assert Content(t) == t.cmds + [Sync];
    hide Content;
    forall x | 0 <= x < Total(t) ensures sh.executed[t.start + x] == Content(t)[x] {
      assert t.start <= t.start + x < End(t);
    }
  }

  // ---------------------------------------------------------------- along a run

  /** Nothing that was decided is undone: `b` is a later state than `a`. */
  predicate Later(a: Shared, b: Shared) {
    && LaterLog(a, b) && a.executed <= b.executed
    && a.shadow <= b.shadow && a.handed <= b.handed && a.published <= b.published && a.gather <= b.gather
  }

  predicate LaterLog(a: Shared, b: Shared) {
    && |a.log| <= |b.log|
    && (forall x :: 0 <= x < |a.log| ==>
          && b.log[x].cmd == a.log[x].cmd && b.log[x].who == a.log[x].who
          && (a.log[x].written ==> b.log[x].written) && (a.log[x].done ==> b.log[x].done))
  }

  lemma StepLaterLog(c: Config, sh: Shared, i: nat, t: Thread, env: Env)
    requires Step(c, sh, i, t, env).Go?
    ensures LaterLog(sh, Step(c, sh, i, t, env).sh)
  {
    hide Idx, Wrp, Ptr, Ovf, HasSpace, IncProd, Consumed, Full, SyncPtr, ValidFor, Chunk, FlipRange, Content, Get,
         Put, CanRead;
  }

  lemma StepLater(c: Config, s: State, i: nat, env: Env)
    requires Inv(c, s) && i < |s.ts| && Step(c, s.sh, i, s.ts[i], env).Go?
    ensures Later(s.sh, Step(c, s.sh, i, s.ts[i], env).sh)
  {
    hide Idx, Wrp, Ptr, Ovf, HasSpace, IncProd, Consumed, Full, SyncPtr, ValidFor, Chunk, FlipRange, Content, Get,
         Put, CanRead,
         RingOk, MapOk, LogOk, LockOk, Words, ProgressOk, RolesOk, RangeOk, LaterLog, MarkDone, MarkWritten,
         NewSlots, Total;
    var sh, t := s.sh, s.ts[i];
    StepLaterLog(c, sh, i, t, env);
    assert ThreadInv(c, sh, i, t);
  }

  lemma NextLater(c: Config, s: State, s': State, a: Action)
    requires Inv(c, s) && NextBy(c, s, s', a)
    ensures Later(s.sh, s'.sh)
  {
    hide Inv, Step, Idx, Wrp, Empty, Call, Ptr;
    match a
    case Enter(i, cmds, sync) =>
    case Run(i, env) => StepLater(c, s, i, env);
    case Hardware =>
  }

  lemma LaterTransitive(a: Shared, b: Shared, d: Shared)
    requires Later(a, b) && Later(b, d)
    ensures Later(a, d)
  {}

  /** Along every run the log only grows, marks are never lost, and the executed history, the
      published pointer and the shadow cons never move backwards. */
  lemma RunLater(c: Config, run: seq<State>, m: nat, n: nat)
    requires Legal(c) && IsRun(c, run) && m <= n < |run|
    ensures Later(run[m].sh, run[n].sh)
    decreases n - m
  {
    hide Later, Inv, Init, NextBy;
    if m == n {
      LaterReflexive(run[m].sh);
    } else {
      RunLater(c, run, m, n - 1);
      RunInv(c, run, n - 1);
      assert NextState(c, run[n - 1], run[n - 1 + 1]);
      var a :| NextBy(c, run[n - 1], run[n], a);
      NextLater(c, run[n - 1], run[n], a);
      LaterTransitive(run[m].sh, run[n - 1].sh, run[n].sh);
    }
  }

  lemma LaterReflexive(a: Shared)
    ensures Later(a, a)
  {}
}
