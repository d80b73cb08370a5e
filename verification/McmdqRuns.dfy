/** The invariant holds in every reachable state, and what that says about the queue. */
module McmdqRuns {
  import opened Ring
  import opened ValidMap
  import opened Mcmdq
  import opened McmdqInv
  import opened McmdqReserve
  import opened McmdqPublish
  import opened McmdqLock
  import opened McmdqLocal

  lemma InitInv(c: Config, s: State)
    requires Legal(c) && Init(c, s)
    ensures Inv(c, s)
  {
    hide Idx, Wrp, Ovf;
    SmallPos(c.k, 0);
    PtrFacts(c.k, 0);
  }

  lemma Assemble(c: Config, s: State, i: nat, sh': Shared, t': Thread)
    requires Inv(c, s) && i < |s.ts|
    requires Core(c, sh') && ThreadInv(c, sh', i, t')
    requires forall j :: 0 <= j < |s.ts| && j != i ==> ThreadInv(c, sh', j, s.ts[j])
    ensures Inv(c, State(sh', s.ts[i := t']))
  {
    hide Core, ThreadInv;
  }

  lemma AssembleLocal(c: Config, s: State, i: nat, t': Thread)
    requires Inv(c, s) && i < |s.ts| && ThreadInv(c, s.sh, i, t')
    ensures Inv(c, State(s.sh, s.ts[i := t']))
  {
    hide Core, ThreadInv;
  }

  lemma EnterKeeps(c: Config, s: State, i: nat, cmds: seq<Cmd>, sync: bool)
    requires Inv(c, s) && i < |s.ts| && s.ts[i].pc.Idle?
    requires forall x :: 0 <= x < |cmds| ==> cmds[x].Op?
    requires 1 <= |cmds| + (if sync then 1 else 0) <= Size(c)
    ensures Inv(c, s.(ts := s.ts[i := Call(s.ts[i], cmds, sync)]))
  {
    hide Core, RangeOk, ProgressOk, OwnerOk, Idx, Wrp;
    var t, t' := s.ts[i], Call(s.ts[i], cmds, sync);
    FreeSame(c, s.sh, i, t, t');
    hide ThreadInv;
    AssembleLocal(c, s, i, t');
  }

  lemma ReserveKeeps(c: Config, s: State, i: nat, env: Env)
    requires Inv(c, s) && i < |s.ts| && s.ts[i].pc.Cas?
    ensures var n := Step(c, s.sh, i, s.ts[i], env); n.Go? && Inv(c, State(n.sh, s.ts[i := n.t]))
  {
    hide Core, RangeOk, ProgressOk, OwnerOk, RolesOk, SyncOk, Idx, Wrp, Ovf, HasSpace, IncProd, SetFlag, ClearFlag,
         Reserve;
    var sh, t := s.sh, s.ts[i];
    if sh.prod == t.prod && sh.cons == t.cons {
      assert Reserves(c, sh, t) by { CasHasSpace(c, sh, i, t); }
      hide ThreadInv;
      ReserveCore(c, sh, i, t);
      ReserveSelf(c, sh, i, t);
      forall j | 0 <= j < |s.ts| && j != i
        ensures ThreadInv(c, Reserve(c, sh, i, t), j, s.ts[j])
      {
        assert Order(c, sh) by { CoreOrder(c, sh); }
        ReserveOther(c, sh, i, t, j, s.ts[j]);
      }
      Assemble(c, s, i, Reserve(c, sh, i, t), Reserved(c, sh, t));
    } else {
      Reserving(c, sh, i, t, t.(prod := sh.prod, cons := sh.cons, pc := Check));
      AssembleLocal(c, s, i, t.(prod := sh.prod, cons := sh.cons, pc := Check));
    }
  }

  lemma CasHasSpace(c: Config, sh: Shared, i: nat, t: Thread)
    requires ThreadInv(c, sh, i, t) && t.pc.Cas?
    ensures HasSpace(c.k, t.prod, t.cons, Total(t)) && 1 <= Total(t) <= Size(c)
  {
    hide HasSpace;
  }

  lemma CoreOrder(c: Config, sh: Shared)
    requires Core(c, sh)
    ensures Order(c, sh) && LockOk(c, sh)
  {}

  lemma ExclKeeps(c: Config, s: State, i: nat, env: Env)
    requires Inv(c, s) && i < |s.ts|
    requires (s.ts[i].pc.NoSpace? && s.sh.lock == 0) || s.ts[i].pc.ExclWrite? || s.ts[i].pc.ExclUnlock?
    ensures var n := Step(c, s.sh, i, s.ts[i], env); n.Go? && Inv(c, State(n.sh, s.ts[i := n.t]))
  {
    hide Core, ThreadInv, Idx, Wrp;
    var sh, t := s.sh, s.ts[i];
    if t.pc.NoSpace? {
      TakeExcl(c, sh, i, t);
      forall j | 0 <= j < |s.ts| && j != i ensures ThreadInv(c, ExclTaken(sh, i), j, s.ts[j]) {
        TakeExclOther(c, sh, i, j, s.ts[j]);
      }
      Assemble(c, s, i, ExclTaken(sh, i), t.(pc := ExclRead));
    } else if t.pc.ExclWrite? {
      ExclStore(c, sh, i, t);
      forall j | 0 <= j < |s.ts| && j != i ensures ThreadInv(c, StoreCons(sh, t.cons, t.lc), j, s.ts[j]) {
        ExclStoreOther(c, sh, i, t, j, s.ts[j]);
      }
      Assemble(c, s, i, StoreCons(sh, t.cons, t.lc), t.(pc := ExclUnlock));
    } else {
      DropExcl(c, sh, i, t);
      forall j | 0 <= j < |s.ts| && j != i ensures ThreadInv(c, ExclDropped(sh), j, s.ts[j]) {
        DropExclOther(c, sh, i, j, s.ts[j]);
      }
      Assemble(c, s, i, ExclDropped(sh), t.(pc := Load));
    }
  }

  lemma StoreKeeps(c: Config, s: State, i: nat)
    requires Inv(c, s) && i < |s.ts| && s.ts[i].pc.Write? && s.ts[i].pos < Total(s.ts[i])
    ensures var t := s.ts[i]; Inv(c, State(StoreEntry(c, s.sh, t), s.ts[i := t.(pos := t.pos + 1)]))
  {
    hide Core, ThreadInv, StoreEntry;
    var sh, t := s.sh, s.ts[i];
    StoreCore(c, sh, i, t);
    StoreSelf(c, sh, i, t);
    forall j | 0 <= j < |s.ts| && j != i ensures ThreadInv(c, StoreEntry(c, sh, t), j, s.ts[j]) {
      StoreThread(c, sh, i, t, j, s.ts[j]);
    }
    Assemble(c, s, i, StoreEntry(c, sh, t), t.(pos := t.pos + 1));
  }

  lemma MarkKeeps(c: Config, s: State, i: nat)
    requires Inv(c, s) && i < |s.ts| && s.ts[i].pc.Mark? && s.ts[i].walk != s.ts[i].head
    ensures var t := s.ts[i]; var n := Chunk(c.k, t.walk, t.head);
            Inv(c, State(Flip(c, s.sh, t), s.ts[i := t.(walk := IncProd(c.k, t.walk, n), pos := t.pos + n)]))
  {
    hide Core, ThreadInv, Flip, IncProd, Chunk;
    var sh, t := s.sh, s.ts[i];
    var n := Chunk(c.k, t.walk, t.head);
    MarkCore(c, sh, i, t);
    MarkSelf(c, sh, i, t);
    forall j | 0 <= j < |s.ts| && j != i ensures ThreadInv(c, Flip(c, sh, t), j, s.ts[j]) {
      MarkOther(c, sh, i, t, j, s.ts[j]);
    }
    Assemble(c, s, i, Flip(c, sh, t), t.(walk := IncProd(c.k, t.walk, n), pos := t.pos + n));
  }

  lemma OwnerKeeps(c: Config, s: State, i: nat, env: Env)
    requires Inv(c, s) && i < |s.ts| && (s.ts[i].pc.Close? || s.ts[i].pc.Publish? || s.ts[i].pc.HandOver?)
    ensures var n := Step(c, s.sh, i, s.ts[i], env); n.Go? && Inv(c, State(n.sh, s.ts[i := n.t]))
  {
    hide Core, ThreadInv, ClearFlag, SetFlag, Order;
    var sh, t := s.sh, s.ts[i];
    CoreOrder(c, sh);
    if t.pc.Close? {
      CloseCore(c, sh, i, t);
      CloseSelf(c, sh, i, t);
      forall j | 0 <= j < |s.ts| && j != i ensures ThreadInv(c, Closed(sh), j, s.ts[j]) {
        CloseOther(c, sh, i, t, j, s.ts[j]);
      }
      Assemble(c, s, i, Closed(sh), Closer(sh, t));
    } else if t.pc.Publish? {
      PublishCore(c, sh, i, t);
      PublishSelf(c, sh, i, t);
      forall j | 0 <= j < |s.ts| && j != i ensures ThreadInv(c, Published(sh, t), j, s.ts[j]) {
        PublishOther(c, sh, i, t, j, s.ts[j]);
      }
      Assemble(c, s, i, Published(sh, t), t.(pc := HandOver));
    } else {
      HandOverCore(c, sh, i, t);
      HandOverSelf(c, sh, i, t);
      forall j | 0 <= j < |s.ts| && j != i ensures ThreadInv(c, HandedOver(sh, t), j, s.ts[j]) {
        HandOverOther(c, sh, i, t, j, s.ts[j]);
      }
      Assemble(c, s, i, HandedOver(sh, t), t.(pc := AfterSync(t)));
    }
  }

  lemma TakeSharedKeeps(c: Config, s: State, i: nat)
    requires Inv(c, s) && i < |s.ts| && Locks(s.ts[i]) && s.sh.lock >= 0
    ensures Inv(c, State(TakeShared(s.sh, i), s.ts[i := s.ts[i].(pc := Mark)]))
  {
    hide Core, ThreadInv, TakeShared;
    var sh, t := s.sh, s.ts[i];
    TakeSharedCore(c, sh, i, t);
    TakeSharedSelf(c, sh, i, t);
    forall j | 0 <= j < |s.ts| && j != i ensures ThreadInv(c, TakeShared(sh, i), j, s.ts[j]) {
      TakeSharedOther(c, sh, i, j, s.ts[j]);
    }
    Assemble(c, s, i, TakeShared(sh, i), t.(pc := Mark));
  }

  lemma LateKeeps(c: Config, s: State, i: nat)
    requires Inv(c, s) && i < |s.ts| && s.ts[i].pc.LockInc? && s.sh.lock < 0
    ensures Inv(c, State(LateInc(s.sh, i), s.ts[i := s.ts[i].(pc := LockSpin)]))
  {
    hide Core, ThreadInv, LateInc;
    var sh, t := s.sh, s.ts[i];
    IncLate(c, sh, i, t);
    forall j | 0 <= j < |s.ts| && j != i ensures ThreadInv(c, LateInc(sh, i), j, s.ts[j]) {
      IncLateOther(c, sh, i, j, s.ts[j]);
    }
    Assemble(c, s, i, LateInc(sh, i), t.(pc := LockSpin));
  }

  lemma UnlockKeeps(c: Config, s: State, i: nat, env: Env)
    requires Inv(c, s) && i < |s.ts|
    requires || (s.ts[i].pc.TryUnlock? && s.sh.lock == 1)
             || s.ts[i].pc.WriteCons? || s.ts[i].pc.UnlockWrote? || s.ts[i].pc.Unlock?
    ensures var n := Step(c, s.sh, i, s.ts[i], env); n.Go? && Inv(c, State(n.sh, s.ts[i := n.t]))
  {
    hide Core, ThreadInv, DropShared, StoreCons;
    var sh, t := s.sh, s.ts[i];
    if t.pc.TryUnlock? {
      BecomeWriter(c, sh, i, t);
      forall j | 0 <= j < |s.ts| && j != i ensures ThreadInv(c, LastOne(sh, i, t), j, s.ts[j]) {
        BecomeWriterOther(c, sh, i, t, j, s.ts[j]);
      }
      Assemble(c, s, i, LastOne(sh, i, t), t.(pc := WriteCons));
    } else if t.pc.WriteCons? {
      WriterStore(c, sh, i, t);
      forall j | 0 <= j < |s.ts| && j != i ensures ThreadInv(c, StoreCons(sh, t.cons, t.lc), j, s.ts[j]) {
        WriterStoreOther(c, sh, i, t, j, s.ts[j]);
      }
      Assemble(c, s, i, StoreCons(sh, t.cons, t.lc), t.(pc := UnlockWrote));
    } else {
      ReleaseShared(c, sh, i, t);
      forall j | 0 <= j < |s.ts| && j != i ensures ThreadInv(c, DropShared(sh, i), j, s.ts[j]) {
        DropSharedOther(c, sh, i, j, s.ts[j]);
      }
      Assemble(c, s, i, DropShared(sh, i), t.(pc := Idle));
    }
  }

  /** Every step that leaves the shared words alone. */
  lemma LocalKeeps(c: Config, s: State, i: nat, env: Env)
    requires Inv(c, s) && i < |s.ts|
    requires var n := Step(c, s.sh, i, s.ts[i], env); n.Go? && n.sh == s.sh
    requires var t := s.ts[i];
             !(t.pc.Cas? || t.pc.ExclWrite? || t.pc.ExclUnlock? || t.pc.Close? || t.pc.Publish? || t.pc.HandOver?
               || t.pc.WriteCons? || t.pc.UnlockWrote? || t.pc.Unlock? || t.pc.LockInc?
               || (t.pc.NoSpace? && s.sh.lock == 0) || (t.pc.TryUnlock? && s.sh.lock == 1)
               || (t.pc.Write? && t.pos < Total(t)) || (t.pc.Mark? && t.walk != t.head)
               || (t.pc.LockCas? && s.sh.lock == t.seen))
    ensures ThreadInv(c, s.sh, i, Step(c, s.sh, i, s.ts[i], env).t)
  {
    hide Core, ThreadInv, Idx, Wrp, Ovf, HasSpace, IncProd, Consumed, Full, SyncPtr, ValidFor, Chunk,
         Reserve, StoreEntry, Flip, StoreCons, TakeShared, DropShared, Ptr;
    var sh, t := s.sh, s.ts[i];
    var t' := Step(c, sh, i, t, env).t;
    CoreOrder(c, sh);
    if Waiting(t) {
      LocalSync(c, s, i, env);
      return;
    }
    match t.pc
    case Load => ReservingStep(c, s, i, t');
    case Check => if t'.pc.Cas? { SpaceFound(c, sh, i, t); } else { ReservingStep(c, s, i, t'); }
    case NoSpace => ReservingStep(c, s, i, t');
    case ExclRead => ReadExclusively(c, sh, i, t, env.value);
    case Spin => ReservingStep(c, s, i, t');
    case Write => WritingDone(c, sh, i, t);
    case LockSpin => Spinning(c, sh, i, t, sh.lock);
    case LockCas => Spinning(c, sh, i, t, 0);
    case Mark => MarkingDone(c, sh, i, t);
    case WaitOwner => OwnerTurn(c, sh, i, t);
    case Poll => if t.walk == t.close { PollDone(c, sh, i, t); } else { PollSelf(c, sh, i, t); }
  }

  /** The same while waiting for the CMD_SYNC. */
  lemma LocalSync(c: Config, s: State, i: nat, env: Env)
    requires Inv(c, s) && i < |s.ts| && Step(c, s.sh, i, s.ts[i], env).Go?
    requires var t := s.ts[i];
             t.pc.SyncLoad? || t.pc.MsiPoll? || t.pc.SyncCheck? || t.pc.SyncRead? || (t.pc.TryUnlock? && s.sh.lock != 1)
    ensures ThreadInv(c, s.sh, i, Step(c, s.sh, i, s.ts[i], env).t)
  {
    hide Core, ThreadInv, Idx, Wrp, Ovf, HasSpace, IncProd, Consumed, Full, SyncPtr, ValidFor, Chunk,
         Reserve, StoreEntry, Flip, StoreCons, TakeShared, DropShared, Ptr;
    var sh, t := s.sh, s.ts[i];
    var t' := Step(c, sh, i, t, env).t;
    CoreOrder(c, sh);
    match t.pc
    case SyncLoad => SyncSnapshot(c, sh, i, t);
    case MsiPoll =>
      if t'.ok { MsiPollStep(c, s, i, env); } else { SyncReads(c, sh, i, t, env.value, t'); }
    case SyncCheck => SyncTested(c, sh, i, t);
    case SyncRead => SyncReads(c, sh, i, t, env.value, t');
    case TryUnlock => NotLast(c, sh, i, t);
  }

  lemma MsiPollStep(c: Config, s: State, i: nat, env: Env)
    requires Inv(c, s) && i < |s.ts| && s.ts[i].pc.MsiPoll?
    requires var n := Step(c, s.sh, i, s.ts[i], env); n.Go? && n.t.ok
    ensures ThreadInv(c, s.sh, i, Step(c, s.sh, i, s.ts[i], env).t)
  {
    hide Core, Idx, Wrp, Ovf, HasSpace, IncProd, SyncPtr, RangeOk, ProgressOk, OwnerOk, RolesOk;
    var t := s.ts[i];
    assert !t.ok;
    MsiSeen(c, s.sh, i, t);
  }

  lemma ReservingStep(c: Config, s: State, i: nat, t': Thread)
    requires Inv(c, s) && i < |s.ts|
    requires var t := s.ts[i];
             && (t.pc.Load? || t.pc.Check? || t.pc.NoSpace? || t.pc.Spin?)
             && (t'.pc.Check? || t'.pc.NoSpace? || t'.pc.Spin?)
             && t' == t.(pc := t'.pc, prod := t'.prod, cons := t'.cons)
    ensures ThreadInv(c, s.sh, i, t')
  {
    hide Core, RangeOk, ProgressOk, OwnerOk, RolesOk, SyncOk, Idx, Wrp;
    Reserving(c, s.sh, i, s.ts[i], t');
  }

  /** Every step of every CPU keeps the invariant. */
  lemma RunKeeps(c: Config, s: State, i: nat, env: Env)
    requires Inv(c, s) && i < |s.ts| && Step(c, s.sh, i, s.ts[i], env).Go?
    ensures var n := Step(c, s.sh, i, s.ts[i], env); n.Go? && Inv(c, State(n.sh, s.ts[i := n.t]))
  {
    hide Core, ThreadInv, Idx, Wrp, Ovf, HasSpace, IncProd, Consumed, Full, SyncPtr, ValidFor, Chunk,
         Reserve, StoreEntry, Flip, StoreCons, TakeShared, DropShared, Ptr, Inv;
    var sh, t := s.sh, s.ts[i];
    if t.pc.Cas? {
      ReserveKeeps(c, s, i, env);
    } else if (t.pc.NoSpace? && sh.lock == 0) || t.pc.ExclWrite? || t.pc.ExclUnlock? {
      ExclKeeps(c, s, i, env);
    } else if t.pc.Close? || t.pc.Publish? || t.pc.HandOver? {
      OwnerKeeps(c, s, i, env);
    } else if (t.pc.TryUnlock? && sh.lock == 1) || t.pc.WriteCons? || t.pc.UnlockWrote? || t.pc.Unlock? {
      UnlockKeeps(c, s, i, env);
    } else if t.pc.Write? && t.pos < Total(t) {
      StoreKeeps(c, s, i);
    } else if t.pc.Mark? && t.walk != t.head {
      MarkKeeps(c, s, i);
    } else if t.pc.LockInc? && sh.lock < 0 {
      LateKeeps(c, s, i);
    } else if t.pc.LockInc? || (t.pc.LockCas? && sh.lock == t.seen) {
      assert Locks(t) && sh.lock >= 0 by { SeenOk(c, s, i); }
      TakeSharedKeeps(c, s, i);
    } else {
      LocalKeeps(c, s, i, env);
      AssembleLocal(c, s, i, Step(c, sh, i, t, env).t);
    }
  }

  lemma SeenOk(c: Config, s: State, i: nat)
    requires Inv(c, s) && i < |s.ts|
    ensures s.ts[i].pc.LockCas? ==> s.ts[i].seen >= 0
  {
    hide Core, RangeOk, ProgressOk, OwnerOk, SyncOk;
  }

  lemma HardwareKeeps(c: Config, s: State)
    requires Inv(c, s) && !Empty(c.k, s.sh.hwProd, s.sh.hwCons)
    ensures Inv(c, s.(sh := HwStep(c, s.sh)))
  {
    hide ThreadInv, HwStep, Idx, Wrp, Empty, MapOk, RingOk, LogOk, LockOk, Words;
    HwSees(c, s.sh);
    ConsumeCore(c, s.sh);
    forall j | 0 <= j < |s.ts| ensures ThreadInv(c, HwStep(c, s.sh), j, s.ts[j]) {
      ConsumeThread(c, s.sh, j, s.ts[j]);
    }
  }

  lemma NextKeeps(c: Config, s: State, s': State, a: Action)
    requires Inv(c, s) && NextBy(c, s, s', a)
    ensures Inv(c, s')
  {
    hide Inv, Step, HwStep, Idx, Wrp, Empty, Call;
    match a
    case Enter(i, cmds, sync) => EnterKeeps(c, s, i, cmds, sync);
    case Run(i, env) => RunKeeps(c, s, i, env);
    case Hardware => HardwareKeeps(c, s);
  }

  /** Every state of every run satisfies the invariant. */
  lemma RunInv(c: Config, run: seq<State>, m: nat)
    requires Legal(c) && IsRun(c, run) && m < |run|
    ensures Inv(c, run[m])
    decreases m
  {
    hide Inv, Init, NextBy;
    if m == 0 {
      InitInv(c, run[0]);
    } else {
      RunInv(c, run, m - 1);
      assert NextState(c, run[m - 1], run[m - 1 + 1]);
      var a :| NextBy(c, run[m - 1], run[m], a);
      NextKeeps(c, run[m - 1], run[m], a);
    }
  }
}
