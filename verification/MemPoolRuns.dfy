/** Every step of the memory pool keeps the invariant, and what that says about every run. */
module MemPoolRuns {
  import opened Basics
  import opened MemPool
  import opened MemPoolInv

  // ---------------------------------------------------------------- steps of a thread

  lemma BeginKeeps(s: Pool, s': Pool, i: nat, t: Thread, u: multiset<nat>)
    requires Inv(s, u) && Runs(s, i) && s.ts[i] == Idle && Starts(t) && s' == Set(s, i, t)
    ensures Inv(s', u)
  {
    hide Counters, Everything, Single;
    StepKeeps(s, s', i, u);
  }

  lemma FetchKeeps(s: Pool, s': Pool, i: nat, seg: nat, u: multiset<nat>)
    requires Inv(s, u) && FetchStep(s, s', i, seg)
    ensures Inv(s', u)
  {
    hide Counters, Everything, Single;
    FreshSegment(s, seg, u);
    assert ReadyClean(s') && ClearerOk(s') by { hide DueOf, Private; }
    hide ReadyClean, ClearerOk;
    assert Balanced(s, s', s.ts[i], s'.ts[i]) by { hide Private; }
    hide Balanced, DueOf;
    var rest := s.source - multiset{seg};
    assert s.source == rest + multiset{seg};
    assert Private(s.ts[i]) == multiset{} && Private(s'.ts[i]) == multiset{seg};
    hide Private;
    LocalMove(s, s', s.ts[i], s'.ts[i], multiset{seg});
    StepKeeps(s, s', i, u);
  }

  /** A segment moves between the source and a thread, everything else staying. */
  lemma LocalMove(s: Pool, s': Pool, t: Thread, t': Thread, m: multiset<nat>)
    requires s'.uncleared == s.uncleared && s'.ready == s.ready && s'.poisoned == s.poisoned && s'.out == s.out
    requires s.source == s'.source + m && Private(t) == multiset{} && Private(t') == m
    ensures Local(s', t') == Local(s, t)
  {
    hide Private;
  }

  /** A segment in the source is nowhere else. */
  lemma FreshSegment(s: Pool, seg: nat, u: multiset<nat>)
    requires Inv(s, u) && seg in s.source
    ensures seg !in s.ready && s.clearing != Some(seg)
  {
    hide Counters, ClearerOk, ReadyClean, AllPrivate;
    assert Everything(s)[seg] <= 1;
    assert multiset(s.ready)[seg] == 0;
  }

  lemma AddKeeps(s: Pool, s': Pool, i: nat, u: multiset<nat>)
    requires Inv(s, u) && AddStep(s, s', i)
    ensures Inv(s', u)
  {
    hide Counters, Everything, Single;
    StepKeeps(s, s', i, u);
  }

  lemma ContractKeeps(s: Pool, s': Pool, i: nat, n: nat, u: multiset<nat>)
    requires Inv(s, u) && ContractStep(s, s', i, n)
    ensures Inv(s', u)
  {
    hide Counters, Everything, Single;
    CutSplit(s.uncleared, ContractFromUncleared(s, n));
    CutSplit(s.ready, ContractFromReady(s, n));
    StepKeeps(s, s', i, u);
  }

  lemma PoisonedKeeps(s: Pool, s': Pool, i: nat, u: multiset<nat>)
    requires Inv(s, u) && PoisonedStep(s, s', i)
    ensures Inv(s', u)
  {
    hide Counters, Everything, Single;
    StepKeeps(s, s', i, u);
  }

  lemma ReturnKeeps(s: Pool, s': Pool, i: nat, u: multiset<nat>)
    requires Inv(s, u) && ReturnStep(s, s', i)
    ensures Inv(s', u)
  {
    hide Counters, Everything, Single;
    var todo := s.ts[i].todo;
    assert todo == [todo[0]] + todo[1..];
    assert multiset(todo) == multiset{todo[0]} + multiset(todo[1..]);
    StepKeeps(s, s', i, u);
  }

  lemma GiveBackKeeps(s: Pool, s': Pool, i: nat, seg: nat, u: multiset<nat>)
    requires Inv(s, u) && GiveBackStep(s, s', i, seg)
    ensures Inv(s', u)
  {
    hide Counters, Everything, Single;
    var rest := s.out - multiset{seg};
    assert s.out == rest + multiset{seg};
    assert |s.out| == |rest| + 1;
    assert ReadyClean(s') && ClearerOk(s') by { hide DueOf, Private; }
    hide ReadyClean, ClearerOk;
    assert Balanced(s, s', s.ts[i], s'.ts[i]) by { hide Private; }
    hide Balanced, DueOf;
    assert Private(s.ts[i]) == multiset{} && Private(s'.ts[i]) == multiset{};
    hide Private;
    LocalBack(s, s', s.ts[i], s'.ts[i], multiset{seg});
    StepKeeps(s, s', i, u);
  }

  lemma LocalBack(s: Pool, s': Pool, t: Thread, t': Thread, m: multiset<nat>)
    requires s'.uncleared == s.uncleared && s'.ready == s.ready && s'.poisoned == s.poisoned
    requires s.out == s'.out + m && s'.source == s.source + m && Private(t) == multiset{} && Private(t') == multiset{}
    ensures Local(s', t') == Local(s, t)
  {
    hide Private;
  }

  /** Segments from the front of the two lists go to the caller. */
  lemma HandOutKeeps(s: Pool, s': Pool, i: nat, r: nat, v: nat, missing: nat, clear: bool, u: multiset<nat>)
    requires Inv(s, u) && Runs(s, i) && s.ts[i].Idle? && r <= |s.ready| && v <= |s.uncleared|
    requires s' == Set(s, i, AllocFirst(r, v, missing, clear)).(
                     ready := s.ready[r..], uncleared := s.uncleared[v..],
                     out := s.out + multiset(s.ready[..r] + s.uncleared[..v]))
    ensures Inv(s', u)
  {
    hide Counters, Everything, Single;
    CutSplit(s.ready, r);
    CutSplit(s.uncleared, v);
    assert multiset(s.ready[..r] + s.uncleared[..v]) == multiset(s.ready[..r]) + multiset(s.uncleared[..v]);
    assert |multiset(s.ready[..r] + s.uncleared[..v])| == r + v;
    assert ReadyClean(s') && ClearerOk(s') by { hide DueOf, Private; }
    hide ReadyClean, ClearerOk;
    assert Balanced(s, s', s.ts[i], s'.ts[i]) by { hide Private; }
    hide Balanced, DueOf;
    assert Local(s', s'.ts[i]) == Local(s, s.ts[i]);
    StepKeeps(s, s', i, u);
  }

  lemma AllocKeeps(s: Pool, s': Pool, i: nat, n: nat, clear: bool, slow: bool, u: multiset<nat>)
    requires Inv(s, u) && AllocStep(s, s', i, n, clear, slow)
    ensures Inv(s', u)
  {
    hide Inv;
    var r, v := AllocFromReady(s, n, clear), AllocFromUncleared(s, n, clear, slow);
    HandOutKeeps(s, s', i, r, v, if slow then n - r - v else 0, clear, u);
  }

  lemma SlowKeepKeeps(s: Pool, s': Pool, i: nat, u: multiset<nat>)
    requires Inv(s, u) && SlowKeepStep(s, s', i)
    ensures Inv(s', u)
  {
    hide Counters, Everything, Single;
    StepKeeps(s, s', i, u);
  }

  lemma SlowDropKeeps(s: Pool, s': Pool, i: nat, u: multiset<nat>)
    requires Inv(s, u) && SlowDropStep(s, s', i)
    ensures Inv(s', u)
  {
    hide Counters, Everything, Single;
    StepKeeps(s, s', i, u);
  }

  lemma IsolateReadyKeeps(s: Pool, s': Pool, i: nat, k: nat, u: multiset<nat>)
    requires Inv(s, u) && IsolateReadyStep(s, s', i, k)
    ensures Inv(s', u)
  {
    hide Counters, Everything, Single;
    WithoutSplit(s.ready, k);
    WithoutClean(s.ready, k, s.clean);
    hide Without;
    assert ReadyClean(s') && ClearerOk(s') by { hide DueOf, Private; }
    hide ReadyClean, ClearerOk;
    assert Balanced(s, s', s.ts[i], s'.ts[i]) by { hide Private; }
    hide Balanced, DueOf;
    assert multiset([s.ready[k]] + s.poisoned) == multiset{s.ready[k]} + multiset(s.poisoned);
    StepKeeps(s, s', i, u);
  }

  lemma IsolateUnclearedKeeps(s: Pool, s': Pool, i: nat, k: nat, u: multiset<nat>)
    requires Inv(s, u) && IsolateUnclearedStep(s, s', i, k)
    ensures Inv(s', u)
  {
    hide Counters, Everything, Single;
    WithoutSplit(s.uncleared, k);
    hide Without;
    assert Balanced(s, s', s.ts[i], s'.ts[i]) by { hide Private, ReadyClean; }
    hide Balanced, DueOf;
    assert multiset([s.uncleared[k]] + s.poisoned) == multiset{s.uncleared[k]} + multiset(s.poisoned);
    StepKeeps(s, s', i, u);
  }

  lemma WithoutClean(l: seq<nat>, k: nat, clean: set<nat>)
    requires k < |l| && forall j :: 0 <= j < |l| ==> l[j] in clean
    ensures forall j :: 0 <= j < |Without(l, k)| ==> Without(l, k)[j] in clean
  {}

  /** A counter update takes from what is due exactly what it adds. */
  lemma UpdateDue(t: Thread, c: Counter)
    ensures DueOf(NextUpdate(t).t, c) == DueOf(t, c) - (if NextUpdate(t).c == c then NextUpdate(t).d else 0)
    ensures Private(NextUpdate(t).t) == Private(t)
  {}

  lemma CountKeeps(s: Pool, s': Pool, i: nat, u: multiset<nat>)
    requires Inv(s, u) && Runs(s, i) && s' == Counted(s, i)
    ensures Inv(s', u)
  {
    hide Counters, Everything, Single, NextUpdate, Private, DueOf;
    UpdateDue(s.ts[i], Pooled);
    UpdateDue(s.ts[i], Used);
    UpdateDue(s.ts[i], Ready);
    UpdateDue(s.ts[i], Uncleared);
    StepKeeps(s, s', i, u);
  }

  // ---------------------------------------------------------------- steps of the clear thread

  /** A step of the clear thread moves a segment between the uncleared list, its own place and the ready list. */
  lemma ClearStepKeeps(s: Pool, s': Pool, u: multiset<nat>)
    requires Inv(s, u) && s'.ts == s.ts && s'.poisoned == s.poisoned && s'.out == s.out && s'.source == s.source
    requires multiset(s'.uncleared) + One(s'.clearing) + multiset(s'.ready)
             == multiset(s.uncleared) + One(s.clearing) + multiset(s.ready)
    requires Counters(s') && ClearerOk(s') && ReadyClean(s')
    ensures Inv(s', u)
  {
    hide AllPrivate, Counters, ClearerOk, ReadyClean, Single;
    var x, y := multiset(s.uncleared) + One(s.clearing) + multiset(s.ready), multiset(s.poisoned);
    assert Everything(s) == x + y + s.out + s.source + AllPrivate(s.ts);
    assert Everything(s') == x + y + s.out + s.source + AllPrivate(s.ts);
  }

  lemma StartClearKeeps(s: Pool, s': Pool, u: multiset<nat>)
    requires Inv(s, u) && StartClearStep(s, s')
    ensures Inv(s', u)
  {
    hide AllDue, Everything, Single;
    assert s.uncleared == [s.uncleared[0]] + s.uncleared[1..];
    assert multiset(s.uncleared) == multiset{s.uncleared[0]} + multiset(s.uncleared[1..]);
    ClearStepKeeps(s, s', u);
  }

  lemma EndClearKeeps(s: Pool, s': Pool, ok: bool, u: multiset<nat>)
    requires Inv(s, u) && EndClearStep(s, s', ok)
    ensures Inv(s', u)
  {
    hide AllDue, Everything, Single;
    assert multiset([s.clearing.value] + s.uncleared) == multiset{s.clearing.value} + multiset(s.uncleared);
    ClearStepKeeps(s, s', u);
  }

  lemma ClearCountKeeps(s: Pool, s': Pool, u: multiset<nat>)
    requires Inv(s, u) && ClearCountStep(s, s')
    ensures Inv(s', u)
  {
    hide AllDue, Everything, Single;
    if s.clearer == MoveToReady {
      assert multiset([s.clearing.value] + s.ready) == multiset{s.clearing.value} + multiset(s.ready);
    }
    ClearStepKeeps(s, s', u);
  }

  // ---------------------------------------------------------------- runs

  lemma NextKeeps(s: Pool, s': Pool, a: Action, u: multiset<nat>)
    requires Inv(s, u) && NextBy(s, s', a)
    ensures Inv(s', u)
  {
    hide Inv;
    match a
    case Begin(i, t) => BeginKeeps(s, s', i, t, u);
    case Fetch(i, seg) => FetchKeeps(s, s', i, seg, u);
    case AddUncleared(i) => AddKeeps(s, s', i, u);
    case Contract(i, n) => ContractKeeps(s, s', i, n, u);
    case TakePoisoned(i) => PoisonedKeeps(s, s', i, u);
    case Return(i) => ReturnKeeps(s, s', i, u);
    case GiveBack(i, seg) => GiveBackKeeps(s, s', i, seg, u);
    case Alloc(i, n, clear, slow) => AllocKeeps(s, s', i, n, clear, slow, u);
    case SyncClear(i, seg, ok) => SyncKeeps(s, s', u);
    case SlowKeep(i) => SlowKeepKeeps(s, s', i, u);
    case SlowDrop(i) => SlowDropKeeps(s, s', i, u);
    case Isolate(i, k, fromReady) =>
      if fromReady {
        IsolateReadyKeeps(s, s', i, k, u);
      } else {
        IsolateUnclearedKeeps(s, s', i, k, u);
      }
    case Count(i) => CountKeeps(s, s', i, u);
    case StartClear => StartClearKeeps(s, s', u);
    case EndClear(ok) => EndClearKeeps(s, s', ok, u);
    case ClearCount => ClearCountKeeps(s, s', u);
  }

  lemma SyncKeeps(s: Pool, s': Pool, u: multiset<nat>)
    requires Inv(s, u) && s' == s.(clean := s'.clean) && s.clean <= s'.clean
    ensures Inv(s', u)
  {
    hide AllDue, AllPrivate, Single;
  }

  ghost predicate Next(s: Pool, s': Pool) {
    exists a :: NextBy(s, s', a)
  }

  ghost predicate IsRun(run: seq<Pool>) {
    && |run| > 0 && Init(run[0]) && Single(run[0].source)
    && forall n :: 0 <= n < |run| - 1 ==> Next(run[n], run[n + 1])
  }

  lemma {:induction false} RunInv(run: seq<Pool>, n: nat)
    requires IsRun(run) && n < |run|
    ensures Inv(run[n], run[0].source)
  {
    hide Inv, NextBy, Init, Single;
    if n == 0 {
      InitInv(run[0]);
    } else {
      RunInv(run, n - 1);
      assert Next(run[n - 1], run[n - 1 + 1]);
      var a :| NextBy(run[n - 1], run[n], a);
      NextKeeps(run[n - 1], run[n], a, run[0].source);
    }
  }

  // ---------------------------------------------------------------- what it means

  /** In every state of every run each segment is in exactly one place. */
  lemma ExactlyOnePlace(run: seq<Pool>, n: nat, x: nat)
    requires IsRun(run) && n < |run| && x in run[0].source
    ensures var s := run[n];
            multiset(s.uncleared)[x] + One(s.clearing)[x] + multiset(s.ready)[x] + multiset(s.poisoned)[x]
            + s.out[x] + s.source[x] + AllPrivate(s.ts)[x] == 1
  {
    hide IsRun, AllPrivate, Counters, ClearerOk, ReadyClean;
    RunInv(run, n);
    RunSingle(run);
    assert Everything(run[n])[x] == run[0].source[x] == 1;
  }

  lemma RunSingle(run: seq<Pool>)
    requires IsRun(run)
    ensures |run| > 0 && Single(run[0].source)
  {
    hide Next, Init;
  }

  /** Pooled memory is what is used, ready or uncleared, in every state, with what is still due. */
  lemma PooledIsSum(run: seq<Pool>, n: nat)
    requires IsRun(run) && n < |run|
    ensures var s := run[n];
            s.pooled + TotalDue(s, Pooled)
            == (s.used + TotalDue(s, Used)) + (s.readySize + TotalDue(s, Ready))
               + (s.unclearedSize + TotalDue(s, Uncleared))
  {
    hide IsRun, TotalDue, Everything, Single;
    RunInv(run, n);
  }

  /** When nobody is inside an operation, the counters are exact. */
  lemma QuietCounters(run: seq<Pool>, n: nat)
    requires IsRun(run) && n < |run| && LockFree(run[n]) && forall i :: 0 <= i < |run[n].ts| ==> run[n].ts[i].Idle?
    ensures var s := run[n];
            && s.readySize == |s.ready| && s.unclearedSize == |s.uncleared| + |One(s.clearing)| && s.used == |s.out|
            && s.pooled == s.used + s.readySize + s.unclearedSize
  {
    hide IsRun, Everything, Single, DueOf;
    RunInv(run, n);
    IdleDue(run[n].ts, Pooled);
    IdleDue(run[n].ts, Used);
    IdleDue(run[n].ts, Ready);
    IdleDue(run[n].ts, Uncleared);
    hide AllDue;
  }

  // ---------------------------------------------------------------- clean memory

  /** Action `a` is a clear of segment `x` that succeeded. */
  predicate ClearOf(s: Pool, a: Action, x: nat) {
    || (a == EndClear(true) && s.clearing == Some(x))
    || (a.SyncClear? && a.ok && a.seg == x)
    || (a.SlowKeep? && a.i < |s.ts| && s.ts[a.i].SlowLoop? && s.ts[a.i].node == Some(x) && s.ts[a.i].clear)
  }

  ghost predicate Clears(s: Pool, s': Pool, x: nat) {
    exists a :: NextBy(s, s', a) && ClearOf(s, a, x)
  }

  /** No step from state `m` to state `n` fetches `x` from the source. */
  ghost predicate NotFetched(run: seq<Pool>, m: nat, n: nat, x: nat) {
    forall p, i :: m <= p < n && p + 1 < |run| ==> !NextBy(run[p], run[p + 1], Fetch(i, x))
  }

  /** A segment becomes clean only by a clear that succeeded, of that segment. */
  lemma CleanGained(s: Pool, s': Pool, a: Action, x: nat)
    requires NextBy(s, s', a) && x !in s.clean && x in s'.clean
    ensures ClearOf(s, a, x)
  {
    hide Counted, Cut, AllocFromReady, AllocFromUncleared, ContractFromReady, ContractFromUncleared, Without;
    match a
    case Count(i) => CountClean(s, i);
    case _ =>
  }

  lemma CountClean(s: Pool, i: nat)
    requires Runs(s, i)
    ensures Counted(s, i).clean == s.clean && Counted(s, i).source == s.source
  {
    hide NextUpdate;
  }

  /** A segment leaves the source only by being fetched, and is then not clean. */
  lemma CleanLost(s: Pool, s': Pool, a: Action, x: nat)
    requires NextBy(s, s', a) && x in s.source && x !in s'.source
    ensures x !in s'.clean
  {
    hide NextBy;
    if !a.Fetch? {
      SourceKept(s, s', a);
    } else {
      FetchClean(s, s', a.i, a.seg, x);
    }
  }

  lemma FetchClean(s: Pool, s': Pool, i: nat, seg: nat, x: nat)
    requires NextBy(s, s', Fetch(i, seg)) && x in s.source && x !in s'.source
    ensures x !in s'.clean
  {}

  lemma SourceKept(s: Pool, s': Pool, a: Action)
    requires NextBy(s, s', a) && !a.Fetch?
    ensures s.source <= s'.source
  {
    hide Counted, Cut, AllocFromReady, AllocFromUncleared, ContractFromReady, ContractFromUncleared, Without;
    match a
    case Count(i) => CountClean(s, i);
    case _ =>
  }

  /** Whatever is clean and not with the source was cleared at an earlier step of the run, and has not been
      fetched from the source since. */
  lemma {:induction false} ClearedSince(run: seq<Pool>, n: nat, x: nat) returns (m: nat)
    requires IsRun(run) && n < |run| && x in run[0].source && x !in run[n].source && x in run[n].clean
    ensures m < n && Clears(run[m], run[m + 1], x) && NotFetched(run, m, n, x)
  {
    hide NextBy, Init, Single, ClearOf;
    assert n > 0 && Next(run[n - 1], run[n - 1 + 1]);
    var a :| NextBy(run[n - 1], run[n], a);
    assert forall i :: !NextBy(run[n - 1], run[n - 1 + 1], Fetch(i, x)) by { NoFetch(run[n - 1], run[n], x); }
    if x !in run[n - 1].clean {
      CleanGained(run[n - 1], run[n], a, x);
      m := n - 1;
    } else {
      if x in run[n - 1].source {
        CleanLost(run[n - 1], run[n], a, x);
      }
      m := ClearedSince(run, n - 1, x);
    }
  }

  lemma NoFetch(s: Pool, s': Pool, x: nat)
    requires x in s'.clean
    ensures forall i :: !NextBy(s, s', Fetch(i, x))
  {}

  /** `x` was cleared at a step before state `n`, with no fetch of it from the source in between. */
  ghost predicate WasCleared(run: seq<Pool>, n: nat, x: nat) {
    exists m :: 0 <= m < n < |run| && Clears(run[m], run[m + 1], x) && NotFetched(run, m, n, x)
  }

  /** Every ready segment of every state was cleared since it left the source. */
  lemma ReadyWasCleared(run: seq<Pool>, n: nat, x: nat)
    requires IsRun(run) && n < |run| && x in run[n].ready
    ensures WasCleared(run, n, x)
  {
    hide IsRun, Clears, NotFetched, Inv;
    RunInv(run, n);
    RunSingle(run);
    ReadyOut(run[n], run[0].source, x);
    var m := ClearedSince(run, n, x);
  }

  /** Clear memory asked for without the slow path: as much as is ready, up to the size, and each segment of
      it was cleared since it left the source. */
  lemma CleanHandOut(run: seq<Pool>, n: nat, i: nat, size: nat)
    requires IsRun(run) && n + 1 < |run| && NextBy(run[n], run[n + 1], Alloc(i, size, true, false))
    ensures var got := Cut(run[n], size, true, false);
            && |got| == Min(size, |run[n].ready|) && run[n + 1].out == run[n].out + multiset(got)
            && forall k :: 0 <= k < |got| ==> WasCleared(run, n, got[k])
  {
    hide IsRun, WasCleared;
    var got := Cut(run[n], size, true, false);
    forall k | 0 <= k < |got| ensures WasCleared(run, n, got[k]) {
      ReadyWasCleared(run, n, got[k]);
    }
  }

  /** A ready segment is clean, belongs to the pool and is not with the source. */
  lemma ReadyOut(s: Pool, u: multiset<nat>, x: nat)
    requires Inv(s, u) && x in s.ready
    ensures x in u && x !in s.source && x in s.clean
  {
    hide Counters, ClearerOk, AllPrivate;
    assert x in multiset(s.ready);
    assert Everything(s)[x] <= 1;
  }
}
