/** Where segments go: for every step of the pool, which places it takes segments from and brings them to, and how
    many an operation takes. */
module MemPoolFlow {
  import opened Basics
  import opened MemPool
  import opened MemPoolInv
  import opened MemPoolRuns

  /** The places a segment can be in, apart from the threads inside an operation. */
  datatype Place = InUncleared | InClearing | InReady | InPoisoned | WithCaller | WithSource

  function Contents(s: Pool, p: Place): multiset<nat> {
    match p
    case InUncleared => multiset(s.uncleared)
    case InClearing => One(s.clearing)
    case InReady => multiset(s.ready)
    case InPoisoned => multiset(s.poisoned)
    case WithCaller => s.out
    case WithSource => s.source
  }

  /** The places that a step takes segments from, and those it brings them to. */
  datatype Flow = Flow(from: set<Place>, to: set<Place>)

  /** The flow of each action; where it names one side only, the other side is the thread that acts. */
  function FlowOf(s: Pool, a: Action): Flow {
    match a
    case Fetch(_, _) => Flow({WithSource}, {})
    case AddUncleared(_) => Flow({}, {InUncleared})
    case Contract(_, _) => Flow({InUncleared, InReady}, {})
    case TakePoisoned(_) => Flow({InPoisoned}, {})
    case Return(_) => Flow({}, {WithSource})
    case GiveBack(_, _) => Flow({WithCaller}, {WithSource})
    case Alloc(_, _, _, _) => Flow({InReady, InUncleared}, {WithCaller})
    case SlowKeep(_) => Flow({}, {WithCaller})
    case SlowDrop(_) => Flow({}, {WithSource})
    case Isolate(_, _, fromReady) => Flow(if fromReady then {InReady} else {InUncleared}, {InPoisoned})
    case StartClear => Flow({InUncleared}, {InClearing})
    case EndClear(ok) => if ok then Flow({}, {}) else Flow({InClearing}, {InUncleared})
    case ClearCount => if s.clearer == MoveToReady then Flow({InClearing}, {InReady}) else Flow({}, {})
    case _ => Flow({}, {})
  }

  /** A step changes no place but those of its flow; it only takes from the ones and only brings to the others. */
  predicate Flows(s: Pool, s': Pool, f: Flow, p: Place) {
    if p in f.from then Contents(s', p) <= Contents(s, p)
    else if p in f.to then Contents(s, p) <= Contents(s', p)
    else Contents(s', p) == Contents(s, p)
  }

  // ---------------------------------------------------------------- every step flows so

  lemma TailLess(l: seq<nat>, k: nat)
    requires k <= |l|
    ensures multiset(l[k..]) <= multiset(l)
  {
    CutSplit(l, k);
  }

  lemma WithoutLess(l: seq<nat>, k: nat)
    requires k < |l|
    ensures multiset(Without(l, k)) <= multiset(l)
  {
    WithoutSplit(l, k);
  }

  lemma ContractFlows(s: Pool, s': Pool, i: nat, n: nat, p: Place)
    requires ContractStep(s, s', i, n)
    ensures Flows(s, s', Flow({InUncleared, InReady}, {}), p)
  {
    TailLess(s.uncleared, ContractFromUncleared(s, n));
    TailLess(s.ready, ContractFromReady(s, n));
  }

  lemma AllocFlows(s: Pool, s': Pool, i: nat, n: nat, clear: bool, slow: bool, p: Place)
    requires AllocStep(s, s', i, n, clear, slow)
    ensures Flows(s, s', Flow({InReady, InUncleared}, {WithCaller}), p)
  {
    hide Flows;
    var r, u := AllocFromReady(s, n, clear), AllocFromUncleared(s, n, clear, slow);
    HandOutFlows(s, s', r, u, multiset(Cut(s, n, clear, slow)), p);
  }

  lemma HandOutFlows(s: Pool, s': Pool, r: nat, u: nat, m: multiset<nat>, p: Place)
    requires r <= |s.ready| && u <= |s.uncleared|
    requires s' == s.(ts := s'.ts, ready := s.ready[r..], uncleared := s.uncleared[u..], out := s.out + m)
    ensures Flows(s, s', Flow({InReady, InUncleared}, {WithCaller}), p)
  {
    if p == InReady {
      TailLess(s.ready, r);
    } else if p == InUncleared {
      TailLess(s.uncleared, u);
    }
  }

  lemma IsolateReadyFlows(s: Pool, s': Pool, i: nat, k: nat, p: Place)
    requires IsolateReadyStep(s, s', i, k)
    ensures Flows(s, s', Flow({InReady}, {InPoisoned}), p)
  {
    WithoutLess(s.ready, k);
    hide Without, LockFree, One;
  }

  lemma IsolateUnclearedFlows(s: Pool, s': Pool, i: nat, k: nat, p: Place)
    requires IsolateUnclearedStep(s, s', i, k)
    ensures Flows(s, s', Flow({InUncleared}, {InPoisoned}), p)
  {
    WithoutLess(s.uncleared, k);
    hide Without, LockFree, One;
  }

  lemma CountFlows(s: Pool, s': Pool, i: nat, p: Place)
    requires Runs(s, i) && s' == Counted(s, i)
    ensures Flows(s, s', Flow({}, {}), p)
  {
    CountThread(s, i);
    hide Counted, One;
  }

  lemma StartClearFlows(s: Pool, s': Pool, p: Place)
    requires StartClearStep(s, s') && s.clearing == None
    ensures Flows(s, s', Flow({InUncleared}, {InClearing}), p)
  {
    TailLess(s.uncleared, 1);
  }

  lemma EndClearFlows(s: Pool, s': Pool, ok: bool, p: Place)
    requires EndClearStep(s, s', ok)
    ensures Flows(s, s', if ok then Flow({}, {}) else Flow({InClearing}, {InUncleared}), p)
  {}

  lemma ClearCountFlows(s: Pool, s': Pool, p: Place)
    requires ClearCountStep(s, s')
    ensures Flows(s, s', if s.clearer == MoveToReady then Flow({InClearing}, {InReady}) else Flow({}, {}), p)
  {}

  lemma FetchFlows(s: Pool, s': Pool, i: nat, seg: nat, p: Place)
    requires FetchStep(s, s', i, seg)
    ensures Flows(s, s', Flow({WithSource}, {}), p)
  {}

  lemma AddFlows(s: Pool, s': Pool, i: nat, p: Place)
    requires AddStep(s, s', i)
    ensures Flows(s, s', Flow({}, {InUncleared}), p)
  {}

  lemma PoisonedFlows(s: Pool, s': Pool, i: nat, p: Place)
    requires PoisonedStep(s, s', i)
    ensures Flows(s, s', Flow({InPoisoned}, {}), p)
  {}

  lemma ReturnFlows(s: Pool, s': Pool, i: nat, p: Place)
    requires ReturnStep(s, s', i)
    ensures Flows(s, s', Flow({}, {WithSource}), p)
  {}

  lemma CallerFlows(s: Pool, s': Pool, a: Action, p: Place)
    requires NextBy(s, s', a) && (a.GiveBack? || a.SlowKeep? || a.SlowDrop?)
    ensures Flows(s, s', FlowOf(s, a), p)
  {}

  lemma SameFlows(s: Pool, s': Pool, p: Place)
    requires s' == s.(ts := s'.ts, clean := s'.clean)
    ensures Flows(s, s', Flow({}, {}), p)
  {}

  /** Every step moves segments as its flow says. With the conservation of segments, what the ones lose is what the
      others, or the thread, gain. */
  lemma StepFlows(s: Pool, s': Pool, a: Action, p: Place, u: multiset<nat>)
    requires Inv(s, u) && NextBy(s, s', a)
    ensures Flows(s, s', FlowOf(s, a), p)
  {
    hide Flows, Counters, Everything, ReadyClean, Single;
    match a
    case Contract(i, n) => ContractFlows(s, s', i, n, p);
    case Alloc(i, n, clear, slow) => AllocFlows(s, s', i, n, clear, slow, p);
    case Isolate(i, k, fromReady) =>
      if fromReady {
        IsolateReadyFlows(s, s', i, k, p);
      } else {
        IsolateUnclearedFlows(s, s', i, k, p);
      }
    case Count(i) => CountFlows(s, s', i, p);
    case StartClear => StartClearFlows(s, s', p);
    case EndClear(ok) => EndClearFlows(s, s', ok, p);
    case ClearCount => ClearCountFlows(s, s', p);
    case Fetch(i, seg) => FetchFlows(s, s', i, seg, p);
    case AddUncleared(i) => AddFlows(s, s', i, p);
    case TakePoisoned(i) => PoisonedFlows(s, s', i, p);
    case Return(i) => ReturnFlows(s, s', i, p);
    case GiveBack(_, _) => CallerFlows(s, s', a, p);
    case SlowKeep(_) => CallerFlows(s, s', a, p);
    case SlowDrop(_) => CallerFlows(s, s', a, p);
    case _ => SameFlows(s, s', p);
  }

  // ---------------------------------------------------------------- how many

  /** A contract takes from the front of the uncleared list and then of the ready list, the number asked for or
      all there are, and leaves the rest. */
  lemma ContractTakes(s: Pool, s': Pool, i: nat, n: nat)
    requires NextBy(s, s', Contract(i, n))
    ensures var all := s.uncleared + s.ready; var k := Min(n, |all|);
            s'.ts[i].ContractFree? && s'.ts[i].todo == all[..k] && s'.uncleared + s'.ready == all[k..]
  {}

  /** An allocation hands out, of what it may take from the two lists, the number asked for or all there is. The
      list it takes from last it takes from only when the other is empty. */
  lemma AllocTakes(s: Pool, s': Pool, i: nat, n: nat, clear: bool, slow: bool)
    requires NextBy(s, s', Alloc(i, n, clear, slow))
    ensures |s'.out| == |s.out| + Min(n, if clear && !slow then |s.ready| else |s.ready| + |s.uncleared|)
    ensures clear && s'.uncleared != s.uncleared ==> s'.ready == []
    ensures !clear && s'.ready != s.ready ==> s'.uncleared == []
  {}

  /** The three counter updates that follow the lock section of an allocation leave the thread done, or in the slow
      loop for what is missing. */
  lemma AllocCounts(t: Thread)
    requires t.AllocFirst?
    ensures NextUpdate(NextUpdate(NextUpdate(t).t).t).t
            == if t.missing > 0 then SlowLoop(t.missing, 0, None, t.clear) else Idle
  {}

  /** A thread at `t` that makes its counter update, in some state of the pool, is then at `t'`. */
  ghost predicate Updates(t: Thread, t': Thread) {
    exists s, s', i: nat ::
      NextBy(s, s', Count(i)) && i < |s.ts| && i < |s'.ts| && s.ts[i] == t && s'.ts[i] == t'
  }

  lemma UpdateIs(t: Thread, t': Thread)
    requires Updates(t, t')
    ensures t' == NextUpdate(t).t
  {
    hide NextUpdate, Counted, LockFree, FetchStep, AllocStep, ReturnStep, ClearCountStep;
    var s, s', i: nat :| NextBy(s, s', Count(i)) && i < |s.ts| && i < |s'.ts| && s.ts[i] == t && s'.ts[i] == t';
    CountThread(s, i);
  }

  lemma AllocThread(s: Pool, s': Pool, i: nat, n: nat, clear: bool, slow: bool)
    requires NextBy(s, s', Alloc(i, n, clear, slow))
    ensures var t := s'.ts[i]; t.AllocFirst? && t.clear == clear
    ensures s'.ts[i].missing == if slow then n - (|s'.out| - |s.out|) else 0
  {}

  /** Three counter updates after an allocation, with steps of others in between, the thread is done, or with the
      slow path allowed it is in the slow loop for exactly what the lists did not give. */
  lemma AllocThenSlow(s: Pool, s': Pool, i: nat, n: nat, clear: bool, slow: bool, t: Thread, t': Thread, t'': Thread)
    requires NextBy(s, s', Alloc(i, n, clear, slow))
    requires Updates(s'.ts[i], t) && Updates(t, t') && Updates(t', t'')
    ensures var missing := n - (|s'.out| - |s.out|);
            t'' == if slow && missing > 0 then SlowLoop(missing, 0, None, clear) else Idle
  {
    AllocThread(s, s', i, n, clear, slow);
    hide Updates, NextUpdate, NextBy;
    UpdateIs(s'.ts[i], t);
    UpdateIs(t, t');
    UpdateIs(t', t'');
    AllocCounts(s'.ts[i]);
  }

  lemma CountThread(s: Pool, i: nat)
    requires i < |s.ts|
    ensures Counted(s, i).ts == s.ts[i := NextUpdate(s.ts[i]).t]
    ensures var s' := Counted(s, i);
            && s'.uncleared == s.uncleared && s'.clearing == s.clearing && s'.ready == s.ready
            && s'.poisoned == s.poisoned && s'.out == s.out && s'.source == s.source
  {
    hide NextUpdate;
  }

  /** The slow loop counts down what is wanted as it counts up what it got, for each segment it hands out. */
  lemma SlowCounts(s: Pool, s': Pool, i: nat)
    requires NextBy(s, s', SlowKeep(i))
    ensures var t := s.ts[i]; var t' := s'.ts[i];
            && t.SlowLoop? && t'.SlowLoop? && t'.left + t'.got == t.left + t.got && t'.clear == t.clear
            && t'.got - t.got == |s'.out| - |s.out| == 1 && t.node.Some? && t.node.value in s'.out
            && (t.clear ==> t.node.value in s'.clean)
  {}

  /** And so does the loop that expands the pool, for each segment it adds. */
  lemma ExpandCounts(s: Pool, s': Pool, i: nat)
    requires NextBy(s, s', AddUncleared(i))
    ensures var t := s.ts[i]; var t' := s'.ts[i];
            && t.ExpandLoop? && t'.ExpandLoop? && t'.left + t'.added == t.left + t.added
            && t'.added - t.added == |s'.uncleared| - |s.uncleared| == 1
  {}

  // ---------------------------------------------------------------- poisoned memory

  /** Thread `t` returns poisoned segments to the source, `x` among them. */
  predicate Returns(t: Thread, x: nat) {
    t.PoisonedFree? && x in t.todo
  }

  /** Segment `x` is on the poisoned list, or with a thread that returns poisoned segments to the source. */
  predicate Withdrawn(s: Pool, x: nat) {
    x in s.poisoned || (exists i :: 0 <= i < |s.ts| && Returns(s.ts[i], x))
  }

  /** An isolated segment is withdrawn. */
  lemma IsolateWithdraws(s: Pool, s': Pool, i: nat, k: nat, fromReady: bool)
    requires NextBy(s, s', Isolate(i, k, fromReady))
    ensures var l := if fromReady then s.ready else s.uncleared; k < |l| && Withdrawn(s', l[k])
  {}

  lemma ListedKept(s: Pool, s': Pool, a: Action, x: nat)
    requires NextBy(s, s', a) && x in s.poisoned
    ensures x in s'.poisoned || (a.TakePoisoned? && a.i < |s'.ts| && Returns(s'.ts[a.i], x))
  {
    hide NextUpdate, Add, Cut, AllocFromReady, AllocFromUncleared, ContractFromReady, ContractFromUncleared, Without;
    if a.Count? {
      CountThread(s, a.i);
    }
  }

  lemma ReturnedKept(s: Pool, s': Pool, a: Action, i: nat, x: nat)
    requires NextBy(s, s', a) && i < |s.ts| && Returns(s.ts[i], x)
    ensures x in s'.source || (i < |s'.ts| && Returns(s'.ts[i], x))
  {
    if a == Return(i) {
      assert s'.ts[i] == PoisonedFree(s.ts[i].todo[1..]);
    } else {
      ThreadKept(s, s', a, i, x);
    }
  }

  lemma ThreadKept(s: Pool, s': Pool, a: Action, i: nat, x: nat)
    requires NextBy(s, s', a) && a != Return(i) && i < |s.ts| && Returns(s.ts[i], x)
    ensures i < |s'.ts| && s'.ts[i] == s.ts[i]
  {
    if a.Count? {
      hide Counted;
      CountThread(s, a.i);
      NotLeft(s.ts[i], x);
    } else if a.Begin? || a.Contract? || a.TakePoisoned? || a.Alloc? || a.Isolate? {
      hide NextBy;
      BusyKept(s, s', a, i);
    } else if a.Fetch? || a.AddUncleared? || a.GiveBack? || a.SlowKeep? || a.SlowDrop? {
      hide NextBy;
      LoopKept(s, s', a, i);
    }
  }

  /** A step of a thread that does not return poisoned segments. */
  predicate StepOf(s: Pool, s': Pool, j: nat) {
    j < |s.ts| && !s.ts[j].PoisonedFree? && |s'.ts| == |s.ts| && s'.ts == s.ts[j := s'.ts[j]]
  }

  lemma FetchOf(s: Pool, s': Pool, j: nat, seg: nat)
    requires FetchStep(s, s', j, seg)
    ensures StepOf(s, s', j)
  {}

  lemma AddOf(s: Pool, s': Pool, j: nat)
    requires AddStep(s, s', j)
    ensures StepOf(s, s', j)
  {}

  lemma SlowOf(s: Pool, s': Pool, j: nat)
    requires SlowKeepStep(s, s', j) || SlowDropStep(s, s', j)
    ensures StepOf(s, s', j)
  {}

  lemma LoopKept(s: Pool, s': Pool, a: Action, i: nat)
    requires NextBy(s, s', a) && (a.Fetch? || a.AddUncleared? || a.GiveBack? || a.SlowKeep? || a.SlowDrop?)
    requires i < |s.ts| && s.ts[i].PoisonedFree?
    ensures i < |s'.ts| && s'.ts[i] == s.ts[i]
  {
    hide FetchStep, AddStep, SlowKeepStep, SlowDropStep;
    match a
    case Fetch(j, seg) => FetchOf(s, s', j, seg);
    case AddUncleared(j) => AddOf(s, s', j);
    case GiveBack(j, seg) =>
    case SlowKeep(j) => SlowOf(s, s', j);
    case SlowDrop(j) => SlowOf(s, s', j);
  }

  /** An operation begins in an idle thread. */
  lemma BusyKept(s: Pool, s': Pool, a: Action, i: nat)
    requires NextBy(s, s', a) && (a.Begin? || a.Contract? || a.TakePoisoned? || a.Alloc? || a.Isolate?)
    requires i < |s.ts| && !s.ts[i].Idle?
    ensures i < |s'.ts| && s'.ts[i] == s.ts[i]
  {
    hide Cut, AllocFromReady, AllocFromUncleared, ContractFromReady, ContractFromUncleared, Without, Starts, LockFree;
  }

  lemma NotLeft(t: Thread, x: nat)
    requires Returns(t, x)
    ensures NextUpdate(t).t == t
  {}

  /** And stays so until it is back at the source. */
  lemma WithdrawnStep(s: Pool, s': Pool, a: Action, x: nat)
    requires NextBy(s, s', a) && Withdrawn(s, x)
    ensures Withdrawn(s', x) || x in s'.source
  {
    hide NextBy, Returns;
    if x in s.poisoned {
      ListedKept(s, s', a, x);
    } else {
      var i :| 0 <= i < |s.ts| && Returns(s.ts[i], x);
      ReturnedKept(s, s', a, i, x);
    }
  }

  /** Withdrawn memory is not handed out: until it is back at the source it is on no list of the pool, is not being
      cleared and is with no caller. */
  lemma {:induction false} WithdrawnStays(run: seq<Pool>, m: nat, n: nat, x: nat)
    requires IsRun(run) && m <= n < |run| && Withdrawn(run[m], x) && x in run[0].source
    requires forall k :: m <= k <= n ==> x !in run[k].source
    ensures Withdrawn(run[n], x)
    ensures var s := run[n]; x !in s.out && x !in s.ready && x !in s.uncleared && s.clearing != Some(x)
    decreases n
  {
    hide NextBy, Init, Single, Withdrawn;
    if m < n {
      WithdrawnStays(run, m, n - 1, x);
      assert Next(run[n - 1], run[n - 1 + 1]);
      var a :| NextBy(run[n - 1], run[n], a);
      WithdrawnStep(run[n - 1], run[n], a, x);
    }
    OnlyWithdrawn(run, n, x);
  }

  lemma OnlyWithdrawn(run: seq<Pool>, n: nat, x: nat)
    requires IsRun(run) && n < |run| && Withdrawn(run[n], x) && x in run[0].source
    ensures var s := run[n]; x !in s.out && x !in s.ready && x !in s.uncleared && s.clearing != Some(x)
  {
    hide IsRun, AllPrivate;
    ExactlyOnePlace(run, n, x);
    var s := run[n];
    if x !in s.poisoned {
      var i :| 0 <= i < |s.ts| && Returns(s.ts[i], x);
      PrivateHas(s.ts, i, x);
    }
    assert x in s.ready ==> multiset(s.ready)[x] > 0;
    assert x in s.uncleared ==> multiset(s.uncleared)[x] > 0;
    assert x in s.poisoned ==> multiset(s.poisoned)[x] > 0;
  }

  lemma {:induction false} PrivateHas(ts: seq<Thread>, i: nat, x: nat)
    requires i < |ts| && x in Private(ts[i])
    ensures AllPrivate(ts)[x] > 0
  {
    hide Private;
    if i < |ts| - 1 {
      PrivateHas(ts[..|ts| - 1], i, x);
    }
  }
}
