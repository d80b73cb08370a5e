/** The command queue does not deadlock: whenever a CPU is inside a call, the hardware can consume a
    command or some CPU can go on. The waits of the protocol (for space, for the lock, for the previous
    owner, for the valid bits of the gathered work, for the CMD_SYNC) never wait for each other in a circle. */
module McmdqLive {
  import opened Basics
  import opened Ring
  import opened ValidMap
  import opened Mcmdq
  import opened McmdqInv
  import opened McmdqReserve
  import opened McmdqPublish
  import opened McmdqLock
  import opened McmdqLocal
  import opened McmdqRuns

  /** The list fits behind what the hardware has consumed by now. */
  predicate Room(c: Config, sh: Shared, t: Thread) {
    |sh.log| + Total(t) <= |sh.executed| + Size(c)
  }

  /** The CPU has nothing to do, or is in a wait that only others can end. A CPU that spins because the
      shadow cons shows a full ring tries for the lock again after its time-out, so it is not stuck once
      the lock is free. */
  predicate Stuck(c: Config, sh: Shared, t: Thread) {
    match t.pc
    case Idle => true
    case Load => !Room(c, sh, t)
    case Check => !Room(c, sh, t)
    case Cas => !Room(c, sh, t)
    case NoSpace => !Room(c, sh, t)
    case Spin => !Room(c, sh, t) || (Full(c.k, sh.prod, sh.cons) && sh.lock != 0)
    case LockSpin => sh.lock < 0
    case WaitOwner => sh.ownerProd != t.prod
    case Poll =>
      t.walk != t.close && !ValidFor(sh.valid, Idx(c.k, t.walk), Chunk(c.k, t.walk, t.close), Wrp(c.k, t.walk))
    case MsiPoll => Get(sh.buf, Idx(c.k, SyncPtr(c, t))) != Zeroed
    case SyncCheck => |sh.executed| < End(t)
    case SyncRead => |sh.executed| < End(t)
    case _ => false
  }

  // ---------------------------------------------------------------- what else holds along a run

  /** Reserved slots that are not marked belong to a CPU that is about to mark them. */
  predicate Held(sh: Shared, i: nat, t: Thread) {
    forall x :: 0 <= x < |sh.log| && !sh.log[x].done && sh.log[x].who == i ==>
                  (Unmarked(t) || t.pc.Mark?) && t.start <= x < End(t)
  }

  /** The slot of `x` has not been written again for the next lap. */
  predicate NotAgain(c: Config, sh: Shared, x: nat) {
    |sh.log| <= x + Size(c) || !sh.log[x + Size(c)].written
  }

  /** With MSI polling, a CMD_SYNC that was executed reads as zero until its slot is written again. */
  predicate Answered(c: Config, sh: Shared, x: nat) {
    (c.msi && x < |sh.executed| && x < |sh.log| && sh.log[x].cmd == Sync && NotAgain(c, sh, x))
    ==> Get(sh.buf, Idx(c.k, x)) == Zeroed
  }

  ghost predicate More(c: Config, s: State) {
    && (s.sh.excl.Some? ==> s.sh.excl.value < |s.ts|)
    && (forall i :: 0 <= i < |s.ts| ==> Held(s.sh, i, s.ts[i]))
    && (forall x :: Answered(c, s.sh, x))
  }

  /** Only three steps change the log. */
  lemma StepLog(c: Config, sh: Shared, i: nat, t: Thread, env: Env)
    requires Step(c, sh, i, t, env).Go? && !t.pc.Cas? && !t.pc.Write? && !t.pc.Mark?
    ensures Step(c, sh, i, t, env).sh.log == sh.log
  {
    hide Idx, Wrp, Ptr, Ovf, HasSpace, IncProd, Consumed, Full, SyncPtr, ValidFor, Chunk, Get, CanRead, Total,
         ClearFlag, SetFlag,
         Reserve, StoreEntry, Flip, AfterSync;
  }

  /** A CPU with unmarked slots goes no further than marking them. */
  lemma StepUnmarked(c: Config, sh: Shared, i: nat, t: Thread, env: Env)
    requires Step(c, sh, i, t, env).Go? && Unmarked(t) && !t.pc.Write?
    ensures var t' := Step(c, sh, i, t, env).t;
            (Unmarked(t') || t'.pc.Mark?) && t'.start == t.start && End(t') == End(t)
  {
    hide Idx, Wrp, Ptr, Ovf, HasSpace, IncProd, Consumed, Full, SyncPtr, ValidFor, Chunk, Get, CanRead, ClearFlag,
         SetFlag,
         Reserve, StoreEntry, Flip, AfterSync, TakeShared, DropShared, StoreCons;
  }

  lemma HeldReserve(c: Config, sh: Shared, i: nat, t: Thread, env: Env)
    requires Held(sh, i, t) && t.pc.Cas?
    ensures Step(c, sh, i, t, env).Go? && Held(Step(c, sh, i, t, env).sh, i, Step(c, sh, i, t, env).t)
  {
    hide Idx, Wrp, Ptr, Ovf, HasSpace, IncProd, ClearFlag, SetFlag;
  }

  lemma HeldWrite(c: Config, sh: Shared, i: nat, t: Thread, env: Env)
    requires Held(sh, i, t) && t.pc.Write?
    ensures Step(c, sh, i, t, env).Go? && Held(Step(c, sh, i, t, env).sh, i, Step(c, sh, i, t, env).t)
  {
    hide Idx, Wrp, Ptr, Ovf, IncProd, Content, Put;
  }

  lemma HeldMark(c: Config, sh: Shared, i: nat, t: Thread, env: Env)
    requires Legal(c) && ThreadInv(c, sh, i, t) && Held(sh, i, t) && t.pc.Mark?
    ensures Step(c, sh, i, t, env).Go? && Held(Step(c, sh, i, t, env).sh, i, Step(c, sh, i, t, env).t)
  {
    hide Idx, Wrp, Ptr, Ovf, HasSpace, IncProd, Chunk, FlipRange, OwnerOk, RolesOk, SyncOk, Content;
    if t.walk == t.head {
      PtrInjective(c.k, t.pos, End(t));
    }
  }

  lemma HeldSelf(c: Config, sh: Shared, i: nat, t: Thread, env: Env)
    requires Legal(c) && ThreadInv(c, sh, i, t) && Held(sh, i, t) && Step(c, sh, i, t, env).Go?
    ensures Held(Step(c, sh, i, t, env).sh, i, Step(c, sh, i, t, env).t)
  {
    hide Step, ThreadInv;
    if t.pc.Cas? {
      HeldReserve(c, sh, i, t, env);
    } else if t.pc.Write? {
      HeldWrite(c, sh, i, t, env);
    } else if t.pc.Mark? {
      HeldMark(c, sh, i, t, env);
    } else {
      StepLog(c, sh, i, t, env);
      if Unmarked(t) {
        StepUnmarked(c, sh, i, t, env);
      }
    }
  }

  lemma HeldOther(c: Config, sh: Shared, i: nat, t: Thread, env: Env, j: nat, u: Thread)
    requires Held(sh, j, u) && j != i && Step(c, sh, i, t, env).Go?
    ensures Held(Step(c, sh, i, t, env).sh, j, u)
  {
    hide Idx, Wrp, Ptr, Ovf, HasSpace, IncProd, Chunk, FlipRange, Put, Total, ClearFlag, SetFlag, Content, AfterSync,
         Unmarked;
    if t.pc.Cas? {
      assert Step(c, sh, i, t, env).sh == sh || Step(c, sh, i, t, env).sh.log == sh.log + NewSlots(i, Content(t));
      hide Step;
    } else if t.pc.Write? {
      assert Step(c, sh, i, t, env).sh == sh || Step(c, sh, i, t, env).sh.log == MarkWritten(sh.log, t.start + t.pos);
      hide Step;
    } else if t.pc.Mark? {
      assert Step(c, sh, i, t, env).sh == sh
             || Step(c, sh, i, t, env).sh.log == MarkDone(sh.log, t.pos, Chunk(c.k, t.walk, t.head));
      hide Step;
    } else {
      StepLog(c, sh, i, t, env);
      hide Step;
    }
  }

  /** Until it is marked, a list has not been executed. */
  lemma NotYet(c: Config, sh: Shared, i: nat, t: Thread)
    requires Core(c, sh) && ThreadInv(c, sh, i, t) && Unmarked(t)
    ensures |sh.executed| < End(t)
  {
    hide Idx, Wrp, Ptr, Ovf, HasSpace, OwnerOk, RolesOk, SyncOk, MapOk, RingOk, LockOk, Words, Content;
    UnmarkedInWindow(c, sh, End(t) - 1);
  }

  /** Own steps execute nothing and, but for stores, leave the ring alone. */
  lemma StepRing(c: Config, sh: Shared, i: nat, t: Thread, env: Env)
    requires Step(c, sh, i, t, env).Go?
    ensures var n := Step(c, sh, i, t, env);
            n.sh.executed == sh.executed && (n.sh.buf == sh.buf || (t.pc.Write? && t.pos < Total(t)))
  {
    hide Idx, Wrp, Ptr, Ovf, HasSpace, IncProd, Consumed, Full, SyncPtr, ValidFor, Chunk, FlipRange, Put, CanRead,
         Get, Total,
         Content, NewSlots, MarkDone, MarkWritten, ClearFlag, SetFlag, AfterSync;
  }

  /** Storing a command in slot `z` of the ring concerns only the slot one lap before `z`. */
  lemma AnsweredStore(c: Config, sh: Shared, i: nat, t: Thread, x: nat)
    requires Stores(c, sh, i, t) && Core(c, sh) && Answered(c, sh, x)
    ensures Answered(c, StoreEntry(c, sh, t), x)
  {
    hide Idx, Wrp, Ptr, Ovf, HasSpace, IncProd, OwnerOk, RolesOk, SyncOk, MapOk, RingOk, LockOk, Words, Content;
    StoreIndex(c, sh, i, t);
    var z, n := t.start + t.pos, Size(c);
    UnmarkedInWindow(c, sh, z);
    assert x + n < |sh.executed| ==> sh.log[x + n].done && sh.log[x + n].written;
    hide RangeOk, ProgressOk, LogOk;
    if x < z < x + 2 * n && z != x + n {
      LapOf(c.k, x, z);
    }
  }

  lemma AnsweredStep(c: Config, sh: Shared, i: nat, t: Thread, env: Env, x: nat)
    requires Legal(c) && Core(c, sh) && ThreadInv(c, sh, i, t) && Answered(c, sh, x) && Step(c, sh, i, t, env).Go?
    ensures Answered(c, Step(c, sh, i, t, env).sh, x)
  {
    hide Idx, Wrp, Step, ThreadInv, Core, Get;
    StepRing(c, sh, i, t, env);
    CoreOrder(c, sh);
    if t.pc.Write? && t.pos < Total(t) {
      assert Step(c, sh, i, t, env).sh == StoreEntry(c, sh, t) by { StepStore(c, sh, i, t, env); }
      AnsweredStore(c, sh, i, t, x);
    } else {
      StepWritten(c, sh, i, t, env);
    }
  }

  lemma StepStore(c: Config, sh: Shared, i: nat, t: Thread, env: Env)
    requires t.pc.Write? && t.pos < Total(t)
    ensures Step(c, sh, i, t, env).Go? && Step(c, sh, i, t, env).sh == StoreEntry(c, sh, t)
  {}

  /** No other step writes a slot or changes a command. */
  lemma StepWritten(c: Config, sh: Shared, i: nat, t: Thread, env: Env)
    requires Step(c, sh, i, t, env).Go? && !(t.pc.Write? && t.pos < Total(t))
    ensures var log := Step(c, sh, i, t, env).sh.log;
            && |sh.log| <= |log|
            && (forall x :: 0 <= x < |sh.log| ==> log[x].cmd == sh.log[x].cmd && log[x].written == sh.log[x].written)
            && (forall x :: |sh.log| <= x < |log| ==> !log[x].written)
  {
    hide Idx, Wrp, Ptr, Ovf, HasSpace, IncProd, Consumed, Full, SyncPtr, ValidFor, Chunk, FlipRange, Put, CanRead, Get,
         ClearFlag, SetFlag;
    if !t.pc.Cas? && !t.pc.Write? && !t.pc.Mark? {
      StepLog(c, sh, i, t, env);
      hide Step;
    }
  }

  /** Executing a CMD_SYNC answers it. */
  lemma AnsweredHardware(c: Config, sh: Shared, x: nat)
    requires Legal(c) && Core(c, sh) && Answered(c, sh, x) && |sh.executed| < sh.published
    ensures Answered(c, HwStep(c, sh), x)
  {
    hide Idx, Wrp, Ptr, Ovf, MapOk, LockOk, Words, LogOk;
    ConsumeWords(c, sh);
  }

  // ---------------------------------------------------------------- every step

  lemma RunMore(c: Config, s: State, i: nat, env: Env)
    requires Inv(c, s) && More(c, s) && i < |s.ts| && Step(c, s.sh, i, s.ts[i], env).Go?
    ensures var n := Step(c, s.sh, i, s.ts[i], env); More(c, State(n.sh, s.ts[i := n.t]))
  {
    hide Core, ThreadInv, Held, Answered, Step;
    var n := Step(c, s.sh, i, s.ts[i], env);
    ExclIn(c, s.sh, i, s.ts[i], env);
    HeldSelf(c, s.sh, i, s.ts[i], env);
    forall j | 0 <= j < |s.ts| && j != i ensures Held(n.sh, j, s.ts[j]) {
      HeldOther(c, s.sh, i, s.ts[i], env, j, s.ts[j]);
    }
    forall x ensures Answered(c, n.sh, x) {
      AnsweredStep(c, s.sh, i, s.ts[i], env, x);
    }
  }

  lemma ExclIn(c: Config, sh: Shared, i: nat, t: Thread, env: Env)
    requires Step(c, sh, i, t, env).Go?
    ensures var e := Step(c, sh, i, t, env).sh.excl; e == sh.excl || e == Some(i) || e == None
  {
    hide Idx, Wrp, Ptr, Ovf, HasSpace, IncProd, Consumed, Full, SyncPtr, ValidFor, Chunk, FlipRange, Get, Put, CanRead,
         NewSlots, MarkDone, MarkWritten, Content, Total;
  }

  lemma NextMore(c: Config, s: State, s': State, a: Action)
    requires Inv(c, s) && More(c, s) && NextBy(c, s, s', a)
    ensures More(c, s')
  {
    hide Core, ThreadInv, Answered, Step, HwStep, Idx, Wrp, Empty;
    match a
    case Enter(i, cmds, sync) =>
      hide Inv;
      EnterMore(s.sh, i, s.ts[i], cmds, sync);
    case Run(i, env) => RunMore(c, s, i, env);
    case Hardware =>
      HwSees(c, s.sh);
      assert HwStep(c, s.sh).excl == s.sh.excl && HwStep(c, s.sh).log == s.sh.log by { HwKeeps(c, s.sh); }
      CoreOrder(c, s.sh);
      forall x ensures Answered(c, HwStep(c, s.sh), x) {
        AnsweredHardware(c, s.sh, x);
      }
  }

  lemma HwKeeps(c: Config, sh: Shared)
    ensures HwStep(c, sh).excl == sh.excl && HwStep(c, sh).log == sh.log
  {}

  lemma EnterMore(sh: Shared, i: nat, t: Thread, cmds: seq<Cmd>, sync: bool)
    requires t.pc.Idle? && Held(sh, i, t)
    ensures Held(sh, i, Call(t, cmds, sync))
  {}

  lemma RunMoreInv(c: Config, run: seq<State>, m: nat)
    requires Legal(c) && IsRun(c, run) && m < |run|
    ensures Inv(c, run[m]) && More(c, run[m])
    decreases m
  {
    hide Inv, NextBy, Idx, Wrp;
    RunInv(c, run, m);
    if m > 0 {
      hide More, Init;
      RunMoreInv(c, run, m - 1);
      assert NextState(c, run[m - 1], run[m - 1 + 1]);
      var a :| NextBy(c, run[m - 1], run[m], a);
      NextMore(c, run[m - 1], run[m], a);
    }
  }

  // ---------------------------------------------------------------- somebody goes on

  predicate Goes(c: Config, s: State, j: nat) {
    j < |s.ts| && !Stuck(c, s.sh, s.ts[j])
  }

  /** A CPU that has not marked its slots yet goes on, or the holder of the exclusive lock does. */
  lemma MarkerGoes(c: Config, s: State, i: nat) returns (j: nat)
    requires Inv(c, s) && More(c, s) && i < |s.ts| && (Unmarked(s.ts[i]) || s.ts[i].pc.Mark?)
    ensures Goes(c, s, j)
  {
    hide Idx, Wrp, Ptr, HasSpace, Full, SyncPtr, ValidFor, Chunk, Get, MapOk, RingOk, LogOk, Words, RangeOk, ProgressOk,
         OwnerOk, SyncOk,
         Held, Answered, Order, LockOk;
    j := i;
    if Stuck(c, s.sh, s.ts[i]) {
      LockSign(c, s.sh);
      j := s.sh.excl.value;
      assert ThreadInv(c, s.sh, j, s.ts[j]);
    }
  }

  /** While a range waits to be published, its owner goes on, or a CPU that the owner waits for. */
  lemma CloserGoes(c: Config, s: State, i: nat) returns (j: nat)
    requires Inv(c, s) && More(c, s) && i < |s.ts| && Closing(s.ts[i])
    ensures Goes(c, s, j)
  {
    hide Idx, Wrp, Ptr, HasSpace, Full, SyncPtr, ValidFor, Chunk, Get, MapOk, RingOk, Words, RangeOk, ProgressOk,
         OwnerOk, SyncOk,
         RolesOk, Answered, Order, LockOk, Core;
    j := i;
    if Stuck(c, s.sh, s.ts[i]) {
      var x := PollWaits(c, s.sh, i, s.ts[i]);
      assert s.sh.log[x].who < |s.ts| by { SlotWho(c, s.sh, x); }
      assert Held(s.sh, s.sh.log[x].who, s.ts[s.sh.log[x].who]);
      j := MarkerGoes(c, s, s.sh.log[x].who);
    }
  }

  lemma SlotWho(c: Config, sh: Shared, x: nat)
    requires Core(c, sh) && x < |sh.log|
    ensures sh.log[x].who < c.cpus
  {
    hide MapOk, RingOk, LockOk, Words, Order, Idx, Wrp;
  }

  /** The owner of a range that is still being gathered: when everything before it is handed over it is
      its turn. */
  lemma OwnerGoes(c: Config, s: State, i: nat) returns (j: nat)
    requires Inv(c, s) && More(c, s) && i < |s.ts| && OwnerOpen(s.ts[i]) && s.sh.handed == s.sh.gather
    ensures Goes(c, s, j)
  {
    hide Idx, Wrp, Ptr, HasSpace, Full, SyncPtr, ValidFor, Chunk, Get, MapOk, RingOk, ProgressOk, SyncOk,
         RolesOk, Answered, Held, Order, LockOk, LogOk;
    if Unmarked(s.ts[i]) || s.ts[i].pc.Mark? {
      j := MarkerGoes(c, s, i);
    } else {
      j := i;
      assert ThreadInv(c, s.sh, i, s.ts[i]);
    }
  }

  /** Everything reserved has been executed. */
  predicate Quiet(sh: Shared) {
    |sh.executed| == |sh.log| && sh.published == |sh.log| && sh.gather == |sh.log| && sh.handed == |sh.log|
  }

  /** Then a CPU with reserved slots has only to return. */
  lemma ReturnerGoes(c: Config, s: State, i: nat)
    requires Inv(c, s) && More(c, s) && i < |s.ts| && InRange(s.ts[i]) && Quiet(s.sh)
    ensures Goes(c, s, i)
  {
    hide Idx, Wrp, Ptr, HasSpace, Full, SyncPtr, ValidFor, Chunk, Get, MapOk, RingOk, LockOk, Words, Content, Order,
         Held;
    var sh, t := s.sh, s.ts[i];
    assert ThreadInv(c, sh, i, t);
    if Unmarked(t) {
      NotYet(c, sh, i, t);
    }
    if t.pc.MsiPoll? {
      MsiGoes(c, s, i);
    }
  }

  lemma MsiGoes(c: Config, s: State, i: nat)
    requires Inv(c, s) && More(c, s) && i < |s.ts| && s.ts[i].pc.MsiPoll? && Quiet(s.sh)
    ensures Goes(c, s, i)
  {
    hide Idx, Wrp, Ptr, HasSpace, Full, IncProd, SyncPtr, ValidFor, Chunk, Get, MapOk, RingOk, LockOk, Words, LogOk,
         Content, Held,
         ProgressOk, OwnerOk;
    var sh, t := s.sh, s.ts[i];
    assert ThreadInv(c, sh, i, t);
    SyncPtrIs(c, sh, i, t);
    PtrFacts(c.k, End(t) - 1);
    assert Answered(c, sh, End(t) - 1);
  }

  /** And a CPU that wants space finds it, or the lock is in the hands of one that goes on. */
  lemma ReserverGoes(c: Config, s: State, i: nat) returns (j: nat)
    requires Inv(c, s) && More(c, s) && i < |s.ts| && !InRange(s.ts[i]) && !s.ts[i].pc.Idle? && Quiet(s.sh)
    ensures Goes(c, s, j)
  {
    hide Idx, Wrp, Ptr, HasSpace, Full, SyncPtr, ValidFor, Chunk, Get, MapOk, RingOk, LogOk, Words, RangeOk, ProgressOk,
         OwnerOk, SyncOk,
         Held, Answered, Order;
    var sh := s.sh;
    assert ThreadInv(c, sh, i, s.ts[i]);
    j := i;
    if Stuck(c, sh, s.ts[i]) {
      assert sh.lock != 0;
      if sh.excl.Some? {
        j := sh.excl.value;
        assert ThreadInv(c, sh, j, s.ts[j]);
      } else {
        j :| j in sh.holders;
        assert ThreadInv(c, sh, j, s.ts[j]);
        ReturnerGoes(c, s, j);
      }
    }
  }

  lemma SomebodyGoes(c: Config, s: State, i: nat) returns (j: nat)
    requires Inv(c, s) && More(c, s) && i < |s.ts| && !s.ts[i].pc.Idle? && |s.sh.executed| == s.sh.published
    ensures Goes(c, s, j)
  {
    hide Idx, Wrp, Ptr, HasSpace, MapOk, RingOk, LockOk, Words, RangeOk, ProgressOk, RolesOk, SyncOk, Goes, More;
    var sh := s.sh;
    if sh.handed < sh.gather {
      var o := sh.log[sh.handed].who;
      assert ThreadInv(c, sh, o, s.ts[o]);
      j := CloserGoes(c, s, o);
    } else if sh.gather < |sh.log| {
      var o := sh.log[sh.gather].who;
      assert ThreadInv(c, sh, o, s.ts[o]);
      j := OwnerGoes(c, s, o);
    } else if InRange(s.ts[i]) {
      ReturnerGoes(c, s, i);
      j := i;
    } else {
      j := ReserverGoes(c, s, i);
    }
  }

  /** In every state of every run in which a CPU is inside a call, the hardware has a command to consume
      or some CPU is not stuck. */
  lemma NoDeadlock(c: Config, run: seq<State>, m: nat, i: nat)
    requires Legal(c) && IsRun(c, run) && m < |run| && i < |run[m].ts| && !run[m].ts[i].pc.Idle?
    ensures || !Empty(c.k, run[m].sh.hwProd, run[m].sh.hwCons)
            || exists j :: 0 <= j < |run[m].ts| && !Stuck(c, run[m].sh, run[m].ts[j])
  {
    hide More, IsRun, Stuck, ThreadInv, Empty;
    RunMoreInv(c, run, m);
    HwSees(c, run[m].sh);
    if |run[m].sh.executed| == run[m].sh.published {
      hide Inv;
      var j := SomebodyGoes(c, run[m], i);
    }
  }

  /** A CPU that is not stuck has a step to take without any time-out, unless it spins for space; and one
      that waits for its CMD_SYNC then sees it completed. */
  lemma NotStuckSteps(c: Config, s: State, i: nat)
    requires Inv(c, s) && i < |s.ts| && !Stuck(c, s.sh, s.ts[i])
    ensures var n := Step(c, s.sh, i, s.ts[i], Env(s.sh.hwCons, false));
            n.Go? && (s.ts[i].pc.SyncRead? ==> n.t.pc.SyncCheck? && Consumed(c.k, n.t.cons, SyncPtr(c, n.t)))
  {
    hide Idx, Wrp, Ptr, Ovf, HasSpace, Full, IncProd, Consumed, SyncPtr, ValidFor, Chunk, Get, MapOk, RingOk, LockOk,
         LogOk,
         Order,
         RangeOk, ProgressOk, OwnerOk, RolesOk, SyncOk, ThreadInv;
    var sh, t := s.sh, s.ts[i];
    PtrFacts(c.k, |sh.executed|);
    if t.pc.SyncRead? {
      var t' := t.(cons := sh.hwCons, lc := |sh.executed|, recent := true, pc := SyncCheck);
      SyncReads(c, sh, i, t, sh.hwCons, t');
      SyncTestExact(c, sh, i, t');
    }
  }

  // ---------------------------------------------------------------- no going round in circles

  function Minus(a: nat, b: nat): nat { if a >= b then a - b else 0 }

  /** A bound on the steps, not counting repeated polls, that a CPU with reserved slots takes until it returns. */
  function Rank(c: Config, t: Thread): nat {
    var n := Size(c);
    match t.pc
    case Write => 16 + n + Total(t) + Minus(Total(t), t.pos)
    case LockInc => 15 + n + Total(t)
    case LockSpin => 14 + n + Total(t)
    case LockCas => 14 + n + Total(t)
    case Mark => 12 + n + Minus(End(t), t.pos)
    case WaitOwner => 11 + n
    case Close => 10 + n
    case Poll => 9 + Minus(t.closeEnd, t.pos)
    case Publish => 8
    case HandOver => 7
    case SyncLoad => 6
    case MsiPoll => 5
    case SyncCheck => 5
    case SyncRead => 5
    case TryUnlock => 4
    case WriteCons => 3
    case UnlockWrote => 2
    case Unlock => 2
    case _ => 0
  }

  /** A round of one of the two loops that repeat a test: for the lock, or for the CMD_SYNC. */
  predicate Polling(t: Thread, t': Thread) {
    || ((t.pc.LockSpin? || t.pc.LockCas?) && (t'.pc.LockSpin? || t'.pc.LockCas?))
    || ((t.pc.SyncCheck? || t.pc.SyncRead?) && (t'.pc.SyncCheck? || t'.pc.SyncRead?))
  }

  lemma RankWrite(c: Config, sh: Shared, i: nat, t: Thread, env: Env)
    requires t.pc.Write?
    ensures Step(c, sh, i, t, env).Go? && Rank(c, Step(c, sh, i, t, env).t) < Rank(c, t)
  {
    hide Idx, Wrp, Ptr, Ovf, IncProd, Content, Put, MarkWritten, StoreEntry;
  }

  lemma RankMark(c: Config, sh: Shared, i: nat, t: Thread, env: Env)
    requires Legal(c) && Core(c, sh) && ThreadInv(c, sh, i, t) && t.pc.Mark?
    ensures Step(c, sh, i, t, env).Go? && Rank(c, Step(c, sh, i, t, env).t) < Rank(c, t)
  {
    hide Idx, Wrp, Ptr, Ovf, IncProd, Chunk, HasSpace, FlipRange, MarkDone, OwnerOk, RolesOk, SyncOk, Content, Flip,
         MapOk, RingOk, LogOk, LockOk, Words;
    if t.walk != t.head {
      MarkChunk(c, sh, i, t);
    }
  }

  lemma RankClose(c: Config, sh: Shared, i: nat, t: Thread, env: Env)
    requires Core(c, sh) && ThreadInv(c, sh, i, t) && t.pc.Close?
    ensures Step(c, sh, i, t, env).Go? && Rank(c, Step(c, sh, i, t, env).t) < Rank(c, t)
  {
    hide Idx, Wrp, Ptr, Ovf, HasSpace, ClearFlag, RolesOk, SyncOk, Content, ProgressOk, MapOk, RingOk, LogOk, LockOk,
         Words;
  }

  lemma RankPoll(c: Config, sh: Shared, i: nat, t: Thread, env: Env)
    requires Legal(c) && Core(c, sh) && ThreadInv(c, sh, i, t) && t.pc.Poll? && Step(c, sh, i, t, env).Go?
    ensures Rank(c, Step(c, sh, i, t, env).t) < Rank(c, t)
  {
    hide Idx, Wrp, Ptr, Ovf, IncProd, Chunk, HasSpace, ValidFor, RolesOk, SyncOk, Content, ProgressOk, MapOk, RingOk,
         LogOk,
         LockOk, Words;
    if t.walk != t.close {
      PollChunk(c, sh, i, t);
    }
  }

  lemma RankInc(c: Config, sh: Shared, i: nat, t: Thread, env: Env)
    requires t.pc.LockInc? && t.pos == t.start
    ensures Step(c, sh, i, t, env).Go? && Rank(c, Step(c, sh, i, t, env).t) < Rank(c, t)
  {
    hide TakeShared;
  }

  lemma RankLock(c: Config, sh: Shared, i: nat, t: Thread, env: Env)
    requires (t.pc.LockSpin? || t.pc.LockCas?) && t.pos == t.start && Step(c, sh, i, t, env).Go?
    ensures var t' := Step(c, sh, i, t, env).t;
            if Polling(t, t') then Rank(c, t') == Rank(c, t) else Rank(c, t') < Rank(c, t)
  {
    hide TakeShared;
    match t.pc {
      case LockSpin =>
      case LockCas =>
    }
  }

  lemma RankOwner(c: Config, sh: Shared, i: nat, t: Thread, env: Env)
    requires (t.pc.WaitOwner? || t.pc.Publish? || t.pc.HandOver?) && Step(c, sh, i, t, env).Go?
    ensures Rank(c, Step(c, sh, i, t, env).t) < Rank(c, t)
  {
    hide SetFlag, Total;
  }

  lemma RankWait(c: Config, sh: Shared, i: nat, t: Thread, env: Env)
    requires Waiting(t) && Step(c, sh, i, t, env).Go?
    ensures var t' := Step(c, sh, i, t, env).t;
            if Polling(t, t') then Rank(c, t') == Rank(c, t) else Rank(c, t') < Rank(c, t)
  {
    hide Rank, Step;
    if t.pc.SyncLoad? || t.pc.MsiPoll? || t.pc.SyncCheck? || t.pc.SyncRead? {
      RankSync(c, sh, i, t, env);
    } else {
      RankUnlock(c, sh, i, t, env);
    }
  }

  lemma RankSync(c: Config, sh: Shared, i: nat, t: Thread, env: Env)
    requires (t.pc.SyncLoad? || t.pc.MsiPoll? || t.pc.SyncCheck? || t.pc.SyncRead?) && Step(c, sh, i, t, env).Go?
    ensures var t' := Step(c, sh, i, t, env).t;
            if Polling(t, t') then Rank(c, t') == Rank(c, t) else Rank(c, t') < Rank(c, t)
  {
    hide Idx, Wrp, IncProd, Consumed, SyncPtr, CanRead, Get, Total;
    match t.pc {
      case SyncLoad =>
      case MsiPoll =>
      case SyncCheck =>
      case SyncRead =>
    }
  }

  lemma RankUnlock(c: Config, sh: Shared, i: nat, t: Thread, env: Env)
    requires (t.pc.TryUnlock? || t.pc.WriteCons? || t.pc.UnlockWrote? || t.pc.Unlock?) && Step(c, sh, i, t, env).Go?
    ensures var t' := Step(c, sh, i, t, env).t; !Polling(t, t') && Rank(c, t') < Rank(c, t)
  {
    hide StoreCons, DropShared, Total;
    match t.pc {
      case TryUnlock =>
      case WriteCons =>
      case UnlockWrote =>
      case Unlock =>
    }
  }

  /** Every step of a CPU with reserved slots brings it nearer to its return, or repeats a test of one of the
      two polling loops. */
  lemma RankFalls(c: Config, s: State, i: nat, env: Env)
    requires Inv(c, s) && i < |s.ts| && InRange(s.ts[i]) && Step(c, s.sh, i, s.ts[i], env).Go?
    ensures var t, t' := s.ts[i], Step(c, s.sh, i, s.ts[i], env).t;
            if Polling(t, t') then Rank(c, t') == Rank(c, t) else Rank(c, t') < Rank(c, t)
  {
    hide Core, RangeOk, OwnerOk, RolesOk, SyncOk, Rank, Step, Idx, Wrp;
    var sh, t := s.sh, s.ts[i];
    assert ThreadInv(c, sh, i, t);
    if t.pc.Write? {
      RankWrite(c, sh, i, t, env);
    } else if t.pc.LockInc? {
      assert t.pos == t.start by { RangeEnd(c, sh, i, t); }
      RankInc(c, sh, i, t, env);
    } else if t.pc.LockSpin? || t.pc.LockCas? {
      assert t.pos == t.start by { RangeEnd(c, sh, i, t); }
      RankLock(c, sh, i, t, env);
    } else if t.pc.Mark? {
      RankMark(c, sh, i, t, env);
    } else if t.pc.Close? {
      RankClose(c, sh, i, t, env);
    } else if t.pc.Poll? {
      RankPoll(c, sh, i, t, env);
    } else if Waiting(t) {
      RankWait(c, sh, i, t, env);
    } else {
      RankOwner(c, sh, i, t, env);
    }
  }

  // ---------------------------------------------------------------- a reservation alone

  /** One step of CPU `i`, not by a time-out. */
  function Own(c: Config, s: State, i: nat): State {
    if i < |s.ts| && Step(c, s.sh, i, s.ts[i], Env(s.sh.hwCons, false)).Go? then
      var g := Step(c, s.sh, i, s.ts[i], Env(s.sh.hwCons, false)); State(g.sh, s.ts[i := g.t])
    else s
  }

  /** The state after `n` steps of CPU `i` alone. */
  function Solo(c: Config, s: State, i: nat, n: nat): State
    decreases n
  {
    if n == 0 then s else Solo(c, Own(c, s, i), i, n - 1)
  }

  lemma {:induction false} SoloAdd(c: Config, s: State, i: nat, m: nat, n: nat)
    ensures Solo(c, Solo(c, s, i, m), i, n) == Solo(c, s, i, m + n)
    decreases m
  {
    hide Own;
    if m > 0 {
      SoloAdd(c, Own(c, s, i), i, m - 1, n);
    }
  }

  /** CPU `i` runs as `t` on the shared words `sh`. */
  predicate With(s: State, i: nat, sh: Shared, t: Thread) {
    s.sh == sh && i < |s.ts| && s.ts[i] == t
  }

  lemma OwnLoad(c: Config, s: State, i: nat)
    requires i < |s.ts| && s.ts[i].pc.Load?
    ensures With(Own(c, s, i), i, s.sh, s.ts[i].(prod := s.sh.prod, cons := s.sh.cons, pc := Check))
  {}

  lemma OwnCheck(c: Config, s: State, i: nat)
    requires i < |s.ts| && s.ts[i].pc.Check?
    ensures var t := s.ts[i];
            With(Own(c, s, i), i, s.sh, t.(pc := if HasSpace(c.k, t.prod, t.cons, Total(t)) then Cas else NoSpace))
  {
    hide HasSpace;
  }

  lemma OwnCas(c: Config, s: State, i: nat)
    requires i < |s.ts| && s.ts[i].pc.Cas? && s.sh.prod == s.ts[i].prod && s.sh.cons == s.ts[i].cons
    ensures var s' := Own(c, s, i); i < |s'.ts| && s'.ts[i].pc.Write? && |s'.sh.log| == |s.sh.log| + Total(s.ts[i])
  {
    hide Idx, Wrp, Ovf, IncProd, SetFlag, ClearFlag;
  }

  lemma OwnNoSpace(c: Config, s: State, i: nat)
    requires i < |s.ts| && s.ts[i].pc.NoSpace? && s.sh.lock == 0
    ensures With(Own(c, s, i), i, s.sh.(lock := INT_MIN, excl := Some(i), late := {}), s.ts[i].(pc := ExclRead))
  {}

  lemma OwnExclRead(c: Config, s: State, i: nat)
    requires i < |s.ts| && s.ts[i].pc.ExclRead? && s.sh.hwCons < U32
    ensures With(Own(c, s, i), i, s.sh, s.ts[i].(cons := s.sh.hwCons, lc := |s.sh.executed|, pc := ExclWrite))
  {
    hide Idx, Wrp;
  }

  lemma OwnExclWrite(c: Config, s: State, i: nat)
    requires i < |s.ts| && s.ts[i].pc.ExclWrite?
    ensures With(Own(c, s, i), i, s.sh.(cons := s.ts[i].cons, shadow := s.ts[i].lc), s.ts[i].(pc := ExclUnlock))
  {}

  lemma OwnExclUnlock(c: Config, s: State, i: nat)
    requires i < |s.ts| && s.ts[i].pc.ExclUnlock?
    ensures With(Own(c, s, i), i, s.sh.(lock := 0, excl := None, late := {}), s.ts[i].(pc := Load))
  {}

  lemma SpaceTest(c: Config, s: State, n: nat)
    requires Inv(c, s)
    ensures HasSpace(c.k, s.sh.prod, s.sh.cons, n) <==> |s.sh.log| + n <= s.sh.shadow + Size(c)
  {
    hide Core, ThreadInv, HasSpace;
    SpaceWords(c, s.sh, n);
  }

  /** Own steps are steps of the machine. */
  lemma OwnInv(c: Config, s: State, i: nat)
    requires Inv(c, s)
    ensures Inv(c, Own(c, s, i))
  {
    hide Inv, Step;
    if i < |s.ts| && Step(c, s.sh, i, s.ts[i], Env(s.sh.hwCons, false)).Go? {
      RunKeeps(c, s, i, Env(s.sh.hwCons, false));
    }
  }

  /** With room behind the shadow cons, three steps reserve the slots. */
  lemma LoadReserves(c: Config, s: State, i: nat)
    requires Inv(c, s) && i < |s.ts| && s.ts[i].pc.Load? && |s.sh.log| + Total(s.ts[i]) <= s.sh.shadow + Size(c)
    ensures var s' := Solo(c, s, i, 3); i < |s'.ts| && s'.ts[i].pc.Write? && |s'.sh.log| == |s.sh.log| + Total(s.ts[i])
  {
    hide Inv, HasSpace, Own;
    SpaceTest(c, s, Total(s.ts[i]));
    OwnLoad(c, s, i);
    var s1 := Own(c, s, i);
    OwnCheck(c, s1, i);
    var s2 := Own(c, s1, i);
    OwnCas(c, s2, i);
    ThreeSteps(c, s, i);
  }

  lemma ThreeSteps(c: Config, s: State, i: nat)
    ensures Solo(c, s, i, 3) == Own(c, Own(c, Own(c, s, i), i), i)
  {
    hide Own;
    assert Solo(c, s, i, 3) == Solo(c, Own(c, s, i), i, 2);
  }

  /** Without, and with the lock free, six steps bring the shadow cons up to what the hardware has consumed. */
  lemma Refreshes(c: Config, s: State, i: nat)
    requires Inv(c, s) && i < |s.ts| && s.ts[i].pc.Load? && s.sh.lock == 0
    requires |s.sh.log| + Total(s.ts[i]) > s.sh.shadow + Size(c)
    ensures var s' := Solo(c, s, i, 6);
            && Inv(c, s') && i < |s'.ts| && s'.ts[i].pc.Load? && Total(s'.ts[i]) == Total(s.ts[i])
            && s'.sh.log == s.sh.log && s'.sh.shadow == |s.sh.executed|
  {
    hide Inv, HasSpace, Own, Solo;
    HwConsFits(c, s);
    SpaceTest(c, s, Total(s.ts[i]));
    OwnLoad(c, s, i);
    var s1 := Own(c, s, i);
    OwnCheck(c, s1, i);
    var s2 := Own(c, s1, i);
    OwnNoSpace(c, s2, i);
    var s3 := Own(c, s2, i);
    OwnExclRead(c, s3, i);
    var s4 := Own(c, s3, i);
    OwnExclWrite(c, s4, i);
    var s5 := Own(c, s4, i);
    OwnExclUnlock(c, s5, i);
    assert Solo(c, s, i, 6) == Own(c, s5, i) by {
      ThreeSteps(c, s, i);
      ThreeSteps(c, s3, i);
      SoloAdd(c, s, i, 3, 3);
    }
    assert Inv(c, Own(c, s5, i)) by {
      OwnInv(c, s, i);
      OwnInv(c, s1, i);
      OwnInv(c, s2, i);
      OwnInv(c, s3, i);
      OwnInv(c, s4, i);
      OwnInv(c, s5, i);
    }
  }

  lemma HwConsFits(c: Config, s: State)
    requires Inv(c, s)
    ensures s.sh.hwCons < U32
  {
    hide Idx, Wrp, Ovf, Ptr, MapOk, RingOk, LogOk, LockOk, ThreadInv;
    PtrFacts(c.k, |s.sh.executed|);
  }

  /** A CPU that wants space which is there, with the lock free, reserves it in at most nine steps of its own:
      it does not go round without end. */
  lemma SoloReserves(c: Config, s: State, i: nat) returns (n: nat)
    requires Inv(c, s) && i < |s.ts| && s.ts[i].pc.Load? && s.sh.lock == 0 && Room(c, s.sh, s.ts[i])
    ensures n <= 9
    ensures var s' := Solo(c, s, i, n); i < |s'.ts| && s'.ts[i].pc.Write? && |s'.sh.log| == |s.sh.log| + Total(s.ts[i])
  {
    hide Inv, Solo;
    if |s.sh.log| + Total(s.ts[i]) <= s.sh.shadow + Size(c) {
      LoadReserves(c, s, i);
      n := 3;
    } else {
      Refreshes(c, s, i);
      LoadReserves(c, Solo(c, s, i, 6), i);
      SoloAdd(c, s, i, 6, 3);
      n := 9;
    }
  }

  /** Why a spinning CPU needs its time-out: two CMD_SYNC issuers that give the lock back together may both
      find it held by another, and then neither stores the shadow cons, whatever the hardware has consumed.
      Every run that has come to that point can go on so. */
  lemma ShadowSkipped(c: Config, run: seq<State>, i: nat, j: nat, env: Env) returns (more: seq<State>)
    requires IsRun(c, run)
    requires var s := run[|run| - 1];
             i < |s.ts| && j < |s.ts| && i != j && s.ts[i].pc.TryUnlock? && s.ts[j].pc.TryUnlock? && s.sh.lock == 2
    ensures |more| == 4 && IsRun(c, run + more)
    ensures var s, s' := run[|run| - 1], more[3];
            && s'.sh.lock == 0 && s'.sh.cons == s.sh.cons && s'.sh.hwCons == s.sh.hwCons
            && i < |s'.ts| && j < |s'.ts| && s'.ts[i].pc.Idle? && s'.ts[j].pc.Idle?
  {
    hide NextState, Step, Init;
    var s := run[|run| - 1];
    var s1 := s.(ts := s.ts[i := s.ts[i].(pc := Unlock)]);
    SkipStep(c, s, s1, i, env);
    var s2 := s1.(ts := s1.ts[j := s1.ts[j].(pc := Unlock)]);
    SkipStep(c, s1, s2, j, env);
    var s3 := State(DropShared(s2.sh, i), s2.ts[i := s2.ts[i].(pc := Idle)]);
    DropStep(c, s2, s3, i, env);
    var s4 := State(DropShared(s3.sh, j), s3.ts[j := s3.ts[j].(pc := Idle)]);
    DropStep(c, s3, s4, j, env);
    more := [s1, s2, s3, s4];
    RunOn(c, run, s1);
    RunOn(c, run + [s1], s2);
    RunOn(c, run + [s1] + [s2], s3);
    RunOn(c, run + [s1] + [s2] + [s3], s4);
    assert run + [s1] + [s2] + [s3] + [s4] == run + more;
  }

  lemma RunOn(c: Config, run: seq<State>, s: State)
    requires IsRun(c, run) && NextState(c, run[|run| - 1], s)
    ensures IsRun(c, run + [s])
  {
    hide Init, NextState;
  }

  lemma SkipStep(c: Config, s: State, s': State, i: nat, env: Env)
    requires i < |s.ts| && s.ts[i].pc.TryUnlock? && s.sh.lock != 1 && s' == s.(ts := s.ts[i := s.ts[i].(pc := Unlock)])
    ensures NextState(c, s, s')
  {
    assert NextBy(c, s, s', Run(i, env));
  }

  lemma DropStep(c: Config, s: State, s': State, i: nat, env: Env)
    requires i < |s.ts| && s.ts[i].pc.Unlock? && s' == State(DropShared(s.sh, i), s.ts[i := s.ts[i].(pc := Idle)])
    ensures NextState(c, s, s')
  {
    assert NextBy(c, s, s', Run(i, env));
  }
}
