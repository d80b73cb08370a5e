/** What a caller of the command queue gets: the list it passed is what is reserved, and a call with a CMD_SYNC
    that did not time out returns after the hardware has executed exactly that list. Everything is said in terms
    of the calls of a run, given as its actions. */
module McmdqCalls {
  import opened Ring
  import opened ValidMap
  import opened Mcmdq
  import opened McmdqInv
  import opened McmdqRuns
  import opened McmdqTheorems
  import opened McmdqLive

  /** A run with the action of each of its steps. */
  predicate RunBy(c: Config, run: seq<State>, acts: seq<Action>) {
    && |run| == |acts| + 1 && Init(c, run[0])
    && forall m :: 0 <= m < |acts| ==> NextBy(c, run[m], run[m + 1], acts[m])
  }

  /** CPU `i` calls with this list at step `m` and does not call again before state `n`. */
  predicate Calls(acts: seq<Action>, m: nat, n: nat, i: nat, cmds: seq<Cmd>, sync: bool) {
    && m < n <= |acts| && acts[m] == Enter(i, cmds, sync)
    && forall k :: m < k < n ==> !(acts[k].Enter? && acts[k].i == i)
  }

  /** What the call puts in the queue. */
  function Listed(cmds: seq<Cmd>, sync: bool): seq<Cmd> {
    if sync then cmds + [Sync] else cmds
  }

  /** No wait of CPU `i` for its CMD_SYNC ends by its time-out between steps `m` and `n`. */
  predicate NoTimeout(run: seq<State>, acts: seq<Action>, m: nat, n: nat, i: nat) {
    forall k :: m < k < n && k < |acts| && k < |run| && acts[k].Run? && acts[k].i == i ==>
      i < |run[k].ts| && (acts[k].env.timeout ==> !run[k].ts[i].pc.MsiPoll? && !run[k].ts[i].pc.SyncRead?)
  }

  /** `list` stands in the log from slot `start` on, reserved by CPU `i`. */
  predicate Logged(sh: Shared, start: nat, i: nat, list: seq<Cmd>) {
    && start + |list| <= |sh.log|
    && forall x :: 0 <= x < |list| ==> sh.log[start + x].cmd == list[x] && sh.log[start + x].who == i
  }

  lemma RunByRun(c: Config, run: seq<State>, acts: seq<Action>)
    requires RunBy(c, run, acts)
    ensures IsRun(c, run)
  {
    hide NextBy, Init;
    forall m | 0 <= m < |run| - 1 ensures NextState(c, run[m], run[m + 1]) {
      assert NextBy(c, run[m], run[m + 1], acts[m]);
    }
  }

  // ---------------------------------------------------------------- the arguments stay

  lemma ReserveArgs(c: Config, sh: Shared, i: nat, t: Thread, env: Env)
    requires Step(c, sh, i, t, env).Go? && !InRange(t)
    ensures var t' := Step(c, sh, i, t, env).t;
            && t'.cmds == t.cmds && t'.sync == t.sync && !t'.pc.Idle? && !Leaving(t')
            && (InRange(t') ==> t'.start == |sh.log|)
  {
    hide Idx, Wrp, Ptr, Ovf, HasSpace, IncProd, Consumed, Full, SyncPtr, ValidFor, Chunk, Get, CanRead, Total,
         ClearFlag, SetFlag, Reserve, StoreEntry, Flip, TakeShared, DropShared, StoreCons;
    match t.pc {
      case Load =>
      case Check =>
      case Cas =>
      case NoSpace =>
      case ExclRead =>
      case ExclWrite =>
      case ExclUnlock =>
      case Spin =>
    }
  }

  lemma PublishArgs(c: Config, sh: Shared, i: nat, t: Thread, env: Env)
    requires Step(c, sh, i, t, env).Go? && InRange(t) && !Waiting(t)
    ensures var t' := Step(c, sh, i, t, env).t;
            && t'.cmds == t.cmds && t'.sync == t.sync && t'.start == t.start
            && (t.sync ==> !t'.pc.Idle?) && !Leaving(t')
  {
    hide Idx, Wrp, Ptr, Ovf, HasSpace, IncProd, Consumed, Full, SyncPtr, ValidFor, Chunk, Get, CanRead, Total,
         ClearFlag, SetFlag, Reserve, StoreEntry, Flip, TakeShared, DropShared, StoreCons;
    match t.pc {
      case Write =>
      case LockInc =>
      case LockSpin =>
      case LockCas =>
      case Mark =>
      case WaitOwner =>
      case Close =>
      case Poll =>
      case Publish =>
      case HandOver =>
    }
  }

  /** A CPU leaves its wait with the CMD_SYNC seen complete, or by a time-out. */
  lemma WaitArgs(c: Config, sh: Shared, i: nat, t: Thread, env: Env)
    requires Step(c, sh, i, t, env).Go? && Waiting(t)
    ensures var t' := Step(c, sh, i, t, env).t;
            && t'.cmds == t.cmds && t'.sync == t.sync && t'.start == t.start
            && (t'.pc.Idle? ==> Leaving(t)) && (Leaving(t) ==> t'.ok == t.ok)
            && (Leaving(t') && !Leaving(t) ==> t'.ok || (env.timeout && (t.pc.MsiPoll? || t.pc.SyncRead?)))
  {
    hide Idx, Wrp, Ptr, Ovf, HasSpace, IncProd, Consumed, Full, SyncPtr, ValidFor, Chunk, Get, CanRead, Total,
         ClearFlag, SetFlag, Reserve, StoreEntry, Flip, TakeShared, DropShared, StoreCons;
    match t.pc {
      case SyncLoad =>
      case MsiPoll =>
      case SyncCheck =>
      case SyncRead =>
      case TryUnlock =>
      case WriteCons =>
      case UnlockWrote =>
      case Unlock =>
    }
  }

  lemma StepArgs(c: Config, sh: Shared, i: nat, t: Thread, env: Env)
    requires Step(c, sh, i, t, env).Go?
    ensures Step(c, sh, i, t, env).t.cmds == t.cmds && Step(c, sh, i, t, env).t.sync == t.sync
  {
    hide Step;
    if !InRange(t) {
      ReserveArgs(c, sh, i, t, env);
    } else if !Waiting(t) {
      PublishArgs(c, sh, i, t, env);
    } else {
      WaitArgs(c, sh, i, t, env);
    }
  }

  /** One step leaves the arguments of a CPU alone unless it is its next call. */
  lemma NextArgs(c: Config, s: State, s': State, a: Action, i: nat)
    requires NextBy(c, s, s', a) && i < |s.ts| && !(a.Enter? && a.i == i)
    ensures |s'.ts| == |s.ts| && s'.ts[i].cmds == s.ts[i].cmds && s'.ts[i].sync == s.ts[i].sync
    ensures !(a.Run? && a.i == i) ==> s'.ts[i] == s.ts[i]
  {
    hide Step, HwStep, Empty;
    match a
    case Enter(j, cmds, sync) =>
    case Run(j, env) => StepArgs(c, s.sh, j, s.ts[j], env);
    case Hardware =>
  }

  /** A CPU works on the list it was called with. */
  lemma {:induction false} ArgsKept(c: Config, run: seq<State>, acts: seq<Action>, m: nat, n: nat, i: nat,
                                    cmds: seq<Cmd>, sync: bool)
    requires RunBy(c, run, acts) && Calls(acts, m, n, i, cmds, sync)
    ensures i < |run[n].ts| && run[n].ts[i].cmds == cmds && run[n].ts[i].sync == sync
    decreases n
  {
    assert NextBy(c, run[n - 1], run[n - 1 + 1], acts[n - 1]);
    if n > m + 1 {
      hide NextBy, Init;
      ArgsKept(c, run, acts, m, n - 1, i, cmds, sync);
      NextArgs(c, run[n - 1], run[n], acts[n - 1], i);
    }
  }

  lemma ListReserved(c: Config, run: seq<State>, acts: seq<Action>, m: nat, k: nat, i: nat, cmds: seq<Cmd>,
                     sync: bool)
    requires Legal(c) && RunBy(c, run, acts) && Calls(acts, m, k, i, cmds, sync) && k < |run|
    requires i < |run[k].ts| && InRange(run[k].ts[i])
    ensures Logged(run[k].sh, run[k].ts[i].start, i, Listed(cmds, sync))
  {
    hide RunBy, InRange, NextState, IsRun, Inv, Logged, Legal;
    RunByRun(c, run, acts);
    ArgsKept(c, run, acts, m, k, i, cmds, sync);
    ContentIs(run[k].ts[i], cmds, sync);
    hide Content, Listed, Calls;
    ListContiguous(c, run, k, i);
    RunInv(c, run, k);
    RangeWho(c, run[k], i);
    LoggedNow(run[k].sh, run[k].ts[i], i);
  }

  lemma ContentIs(t: Thread, cmds: seq<Cmd>, sync: bool)
    requires t.cmds == cmds && t.sync == sync
    ensures Content(t) == Listed(cmds, sync)
  {}

  /** Once the CPU has reserved its slots, they hold, in order and consecutively, exactly the list of the call,
      with the CMD_SYNC behind it if one was asked for; and that stays. */
  lemma ListPlaced(c: Config, run: seq<State>, acts: seq<Action>, m: nat, k: nat, n: nat, i: nat, cmds: seq<Cmd>,
                   sync: bool)
    requires Legal(c) && RunBy(c, run, acts) && Calls(acts, m, k, i, cmds, sync) && k <= n < |run|
    requires i < |run[k].ts| && InRange(run[k].ts[i])
    ensures Logged(run[n].sh, run[k].ts[i].start, i, Listed(cmds, sync))
  {
    ListReserved(c, run, acts, m, k, i, cmds, sync);
    RunByRun(c, run, acts);
    hide RunBy, IsRun, Calls, InRange, Legal, Logged, Listed, LaterLog;
    RunLater(c, run, k, n);
    LoggedLater(run[k].sh, run[n].sh, run[k].ts[i].start, i, Listed(cmds, sync));
  }

  lemma LoggedNow(sh: Shared, t: Thread, i: nat)
    requires End(t) <= |sh.log| && forall x :: t.start <= x < End(t) ==> sh.log[x].who == i
    requires forall x :: 0 <= x < |Content(t)| ==> sh.log[t.start + x].cmd == Content(t)[x]
    ensures Logged(sh, t.start, i, Content(t))
  {}

  lemma LoggedLater(a: Shared, b: Shared, start: nat, i: nat, list: seq<Cmd>)
    requires LaterLog(a, b) && Logged(a, start, i, list)
    ensures Logged(b, start, i, list)
  {}

  lemma RangeWho(c: Config, s: State, i: nat)
    requires Inv(c, s) && i < |s.ts| && InRange(s.ts[i])
    ensures var t := s.ts[i]; End(t) <= |s.sh.log| && forall x :: t.start <= x < End(t) ==> s.sh.log[x].who == i
  {
    hide Ptr, HasSpace, Content, Core, ProgressOk, OwnerOk, RolesOk, SyncOk;
    assert ThreadInv(c, s.sh, i, s.ts[i]);
  }

  /** A CPU returns only from a state in which it has reserved its slots. */
  lemma {:induction false} Reserved(c: Config, run: seq<State>, acts: seq<Action>, m: nat, n: nat, i: nat,
                                    cmds: seq<Cmd>, sync: bool) returns (k: nat)
    requires RunBy(c, run, acts) && Calls(acts, m, n, i, cmds, sync) && i < |run[n].ts| && run[n].ts[i].pc.Idle?
    ensures m < k < n && i < |run[k].ts| && InRange(run[k].ts[i])
    decreases n
  {
    hide NextBy, Init, InRange;
    assert NextBy(c, run[n - 1], run[n - 1 + 1], acts[n - 1]);
    if n == m + 1 {
      EnterBusy(c, run[m], run[n], i, cmds, sync);
      assert false;
    }
    ArgsKept(c, run, acts, m, n - 1, i, cmds, sync);
    k := n - 1;
    if !InRange(run[k].ts[i]) {
      BackIdle(c, run[k], run[n], acts[k], i);
      k := Reserved(c, run, acts, m, n - 1, i, cmds, sync);
    }
  }

  lemma EnterBusy(c: Config, s: State, s': State, i: nat, cmds: seq<Cmd>, sync: bool)
    requires NextBy(c, s, s', Enter(i, cmds, sync))
    ensures i < |s'.ts| && s'.ts[i].pc.Load?
  {}

  lemma BackIdle(c: Config, s: State, s': State, a: Action, i: nat)
    requires NextBy(c, s, s', a) && i < |s.ts| && i < |s'.ts| && s'.ts[i].pc.Idle? && !InRange(s.ts[i])
    requires !(a.Enter? && a.i == i)
    ensures s.ts[i].pc.Idle?
  {
    hide Step, HwStep, InRange;
    if a.Run? && a.i == i {
      ReserveArgs(c, s.sh, i, s.ts[i], a.env);
    } else {
      NextArgs(c, s, s', a, i);
    }
  }

  /** The slots of a call are reserved after it began. */
  predicate Fresh(t: Thread, first: nat) {
    InRange(t) || t.pc.Idle? ==> first <= t.start
  }

  lemma LoadFresh(t: Thread, first: nat)
    requires t.pc.Load?
    ensures Fresh(t, first)
  {}

  lemma StepFresh(c: Config, sh: Shared, i: nat, t: Thread, env: Env, first: nat)
    requires Step(c, sh, i, t, env).Go? && Fresh(t, first) && first <= |sh.log|
    ensures Fresh(Step(c, sh, i, t, env).t, first)
  {
    hide Step, InRange, Waiting;
    if !InRange(t) {
      ReserveArgs(c, sh, i, t, env);
    } else if !Waiting(t) {
      PublishArgs(c, sh, i, t, env);
    } else {
      WaitArgs(c, sh, i, t, env);
    }
  }

  lemma NextFresh(c: Config, s: State, s': State, a: Action, i: nat, first: nat)
    requires NextBy(c, s, s', a) && i < |s.ts| && !(a.Enter? && a.i == i)
    requires Fresh(s.ts[i], first) && first <= |s.sh.log|
    ensures i < |s'.ts| && Fresh(s'.ts[i], first)
  {
    hide Step, HwStep, Empty, Fresh;
    if a.Run? && a.i == i {
      StepFresh(c, s.sh, i, s.ts[i], a.env, first);
    } else {
      NextArgs(c, s, s', a, i);
    }
  }

  lemma {:induction false} CallFresh(c: Config, run: seq<State>, acts: seq<Action>, m: nat, n: nat, i: nat,
                                     cmds: seq<Cmd>, sync: bool)
    requires Legal(c) && RunBy(c, run, acts) && Calls(acts, m, n, i, cmds, sync)
    ensures i < |run[n].ts| && Fresh(run[n].ts[i], |run[m].sh.log|)
    decreases n
  {
    hide NextBy, Init, Fresh, InRange;
    assert NextBy(c, run[n - 1], run[n - 1 + 1], acts[n - 1]);
    if n == m + 1 {
      EnterBusy(c, run[m], run[n], i, cmds, sync);
      LoadFresh(run[n].ts[i], |run[m].sh.log|);
    } else {
      CallFresh(c, run, acts, m, n - 1, i, cmds, sync);
      assert |run[m].sh.log| <= |run[n - 1].sh.log| by {
        RunByRun(c, run, acts);
        RunLater(c, run, m, n - 1);
      }
      NextFresh(c, run[n - 1], run[n], acts[n - 1], i, |run[m].sh.log|);
    }
  }

  /** A call that has returned, with or without a CMD_SYNC: its list stands in the queue, in order and
      consecutively, in slots that were not reserved when it began, and every one of them is marked valid. */
  lemma CallPlaced(c: Config, run: seq<State>, acts: seq<Action>, m: nat, n: nat, i: nat, cmds: seq<Cmd>, sync: bool)
    returns (start: nat)
    requires Legal(c) && RunBy(c, run, acts) && Calls(acts, m, n, i, cmds, sync)
    requires i < |run[n].ts| && run[n].ts[i].pc.Idle?
    ensures |run[m].sh.log| <= start && start + |Listed(cmds, sync)| <= |run[n].sh.log|
    ensures Logged(run[n].sh, start, i, Listed(cmds, sync))
    ensures forall x :: start <= x < start + |Listed(cmds, sync)| ==> run[n].sh.log[x].done
  {
    var k := Reserved(c, run, acts, m, n, i, cmds, sync);
    assert Calls(acts, m, k, i, cmds, sync) && n < |run|;
    CallFresh(c, run, acts, m, k, i, cmds, sync);
    hide RunBy, Calls, InRange, Listed, Logged;
    start := run[k].ts[i].start;
    ListPlaced(c, run, acts, m, k, n, i, cmds, sync);
    RunByRun(c, run, acts);
    hide IsRun;
    RunMoreInv(c, run, n);
    hide Inv;
    AllDone(c, run[n], start, i, Listed(cmds, sync));
  }

  lemma AllDone(c: Config, s: State, start: nat, i: nat, list: seq<Cmd>)
    requires More(c, s) && i < |s.ts| && s.ts[i].pc.Idle? && Logged(s.sh, start, i, list)
    ensures start + |list| <= |s.sh.log| && forall x :: start <= x < start + |list| ==> s.sh.log[x].done
  {
    hide Answered;
    assert Held(s.sh, i, s.ts[i]);
    forall x | start <= x < start + |list| ensures s.sh.log[x].done {
      assert s.sh.log[x].cmd == list[x - start] && s.sh.log[x].who == i;
    }
  }

  // ---------------------------------------------------------------- the call completes

  /** The hardware has executed `list`, consecutively, as its commands from `start` on. */
  predicate Executed(sh: Shared, start: nat, list: seq<Cmd>) {
    start + |list| <= |sh.executed| && sh.executed[start..start + |list|] == list
  }

  /** Where a call with a CMD_SYNC stands: on leaving, the CMD_SYNC was seen complete; on return, the list is
      executed. */
  predicate Kept(s: State, i: nat, cmds: seq<Cmd>) {
    && i < |s.ts|
    && (Leaving(s.ts[i]) ==> s.ts[i].ok)
    && (s.ts[i].pc.Idle? ==> Executed(s.sh, s.ts[i].start, cmds + [Sync]))
  }

  lemma ExecutedLater(a: Shared, b: Shared, start: nat, list: seq<Cmd>)
    requires a.executed <= b.executed && Executed(a, start, list)
    ensures Executed(b, start, list)
  {
    assert b.executed[start..start + |list|] == a.executed[start..start + |list|];
  }

  /** One own step. */
  lemma OwnKept(c: Config, run: seq<State>, n: nat, i: nat, cmds: seq<Cmd>, env: Env)
    requires Legal(c) && IsRun(c, run) && n + 1 < |run| && Kept(run[n], i, cmds)
    requires run[n].ts[i].cmds == cmds && run[n].ts[i].sync && NextBy(c, run[n], run[n + 1], Run(i, env))
    requires env.timeout ==> !run[n].ts[i].pc.MsiPoll? && !run[n].ts[i].pc.SyncRead?
    ensures Kept(run[n + 1], i, cmds)
  {
    hide Step, IsRun, InRange, Waiting, Executed;
    var sh, t := run[n].sh, run[n].ts[i];
    if !InRange(t) {
      ReserveArgs(c, sh, i, t, env);
    } else if !Waiting(t) {
      PublishArgs(c, sh, i, t, env);
    } else {
      WaitArgs(c, sh, i, t, env);
      if Leaving(t) {
        SyncCompletes(c, run, n, i);
        assert Executed(sh, t.start, cmds + [Sync]) by { SliceExecuted(sh, t, cmds); }
        assert Later(sh, run[n + 1].sh) by { RunLater(c, run, n, n + 1); }
        ExecutedLater(sh, run[n + 1].sh, t.start, cmds + [Sync]);
      }
    }
  }

  lemma SliceExecuted(sh: Shared, t: Thread, cmds: seq<Cmd>)
    requires t.sync && t.cmds == cmds && End(t) <= |sh.executed| && sh.executed[t.start..End(t)] == cmds + [Sync]
    ensures Executed(sh, t.start, cmds + [Sync])
  {}

  lemma NextKept(c: Config, run: seq<State>, n: nat, i: nat, cmds: seq<Cmd>, a: Action)
    requires Legal(c) && IsRun(c, run) && n + 1 < |run| && Kept(run[n], i, cmds)
    requires run[n].ts[i].cmds == cmds && run[n].ts[i].sync && NextBy(c, run[n], run[n + 1], a)
    requires !(a.Enter? && a.i == i)
    requires a.Run? && a.i == i && a.env.timeout ==> !run[n].ts[i].pc.MsiPoll? && !run[n].ts[i].pc.SyncRead?
    ensures Kept(run[n + 1], i, cmds)
  {
    hide NextBy, IsRun, Executed;
    if a.Run? && a.i == i {
      OwnKept(c, run, n, i, cmds, a.env);
    } else {
      NextArgs(c, run[n], run[n + 1], a, i);
      assert Later(run[n].sh, run[n + 1].sh) by { RunLater(c, run, n, n + 1); }
      if run[n].ts[i].pc.Idle? {
        ExecutedLater(run[n].sh, run[n + 1].sh, run[n].ts[i].start, cmds + [Sync]);
      }
    }
  }

  lemma EnterKept(c: Config, s: State, s': State, i: nat, cmds: seq<Cmd>)
    requires NextBy(c, s, s', Enter(i, cmds, true))
    ensures Kept(s', i, cmds)
  {
    hide Executed;
  }

  lemma {:induction false} CallKept(c: Config, run: seq<State>, acts: seq<Action>, m: nat, n: nat, i: nat,
                                    cmds: seq<Cmd>)
    requires Legal(c) && RunBy(c, run, acts) && Calls(acts, m, n, i, cmds, true) && NoTimeout(run, acts, m, n, i)
    ensures Kept(run[n], i, cmds)
    decreases n
  {
    hide NextBy, Init, Kept;
    assert NextBy(c, run[n - 1], run[n - 1 + 1], acts[n - 1]);
    if n == m + 1 {
      EnterKept(c, run[m], run[n], i, cmds);
    } else {
      CallKept(c, run, acts, m, n - 1, i, cmds);
      ArgsKept(c, run, acts, m, n - 1, i, cmds, true);
      assert IsRun(c, run) by { RunByRun(c, run, acts); }
      NextKept(c, run, n - 1, i, cmds, acts[n - 1]);
    }
  }

  /** A call with a CMD_SYNC that has returned, or is giving the lock back, without its wait having timed out:
      since the call began, the hardware has executed its list and the CMD_SYNC, consecutively and in order. */
  lemma CallCompletes(c: Config, run: seq<State>, acts: seq<Action>, m: nat, n: nat, i: nat, cmds: seq<Cmd>)
    returns (start: nat)
    requires Legal(c) && RunBy(c, run, acts) && Calls(acts, m, n, i, cmds, true) && NoTimeout(run, acts, m, n, i)
    requires i < |run[n].ts| && (run[n].ts[i].pc.Idle? || Leaving(run[n].ts[i]))
    ensures |run[m].sh.log| <= start && start + |cmds| + 1 <= |run[n].sh.executed|
    ensures run[n].sh.executed[start..start + |cmds| + 1] == cmds + [Sync]
  {
    assert n < |run|;
    hide RunBy, Calls, NoTimeout;
    CallKept(c, run, acts, m, n, i, cmds);
    CallFresh(c, run, acts, m, n, i, cmds, true);
    start := run[n].ts[i].start;
    if Leaving(run[n].ts[i]) {
      RunByRun(c, run, acts);
      ArgsKept(c, run, acts, m, n, i, cmds, true);
      SyncCompletes(c, run, n, i);
    }
  }

  /** The last holder of the lock stores the shadow cons behind the list of its call, so that its slots can be
      reserved again. */
  lemma LastHolderFrees(c: Config, run: seq<State>, acts: seq<Action>, m: nat, n: nat, i: nat, cmds: seq<Cmd>, env: Env)
    requires Legal(c) && RunBy(c, run, acts) && Calls(acts, m, n, i, cmds, true) && NoTimeout(run, acts, m, n, i)
    requires n < |acts| && acts[n] == Run(i, env) && i < |run[n].ts| && run[n].ts[i].pc.WriteCons?
    ensures run[n].ts[i].start + |cmds| + 1 <= run[n + 1].sh.shadow <= |run[n + 1].sh.executed|
    ensures At(c.k, run[n + 1].sh.cons, run[n + 1].sh.shadow)
  {
    assert NextBy(c, run[n], run[n + 1], acts[n]);
    assert run[n + 1].sh.shadow == run[n].ts[i].lc by { hide RunBy, Calls, NoTimeout; }
    hide RunBy, Calls, NoTimeout, NextBy;
    CallKept(c, run, acts, m, n, i, cmds);
    ArgsKept(c, run, acts, m, n, i, cmds, true);
    RunByRun(c, run, acts);
    RunInv(c, run, n);
    RunInv(c, run, n + 1);
    hide IsRun, RingOk, MapOk, LogOk, LockOk, RangeOk, ProgressOk, OwnerOk, RolesOk, Kept, Idx, Wrp, Ptr;
    assert ThreadInv(c, run[n].sh, i, run[n].ts[i]);
    assert run[n].ts[i].ok by { KeptOk(run[n], i, cmds); }
  }

  lemma KeptOk(s: State, i: nat, cmds: seq<Cmd>)
    requires Kept(s, i, cmds) && Leaving(s.ts[i])
    ensures s.ts[i].ok
  {}
}
