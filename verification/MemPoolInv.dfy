/** Conservation in the memory pool: of the segments, and of the counters with the updates still due. */
module MemPoolInv {
  import opened Basics
  import opened MemPool

  // ---------------------------------------------------------------- updates still due

  /** Granules that a thread is yet to add to a counter. */
  function DueOf(t: Thread, c: Counter): int {
    match t
    case Idle => 0
    case ExpandLoop(_, a, _) => if c == Pooled || c == Uncleared then a else 0
    case ExpandPooled(a) => if c == Pooled || c == Uncleared then a else 0
    case ExpandUncleared(a) => if c == Uncleared then a else 0
    case ContractFree(_, u, r) => ContractDue(u, r, c)
    case ContractPooled(u, r) => ContractDue(u, r, c)
    case ContractUncleared(u, r) => if c == Pooled then 0 else ContractDue(u, r, c)
    case ContractReady(r) => if c == Ready then 0 - r else 0
    case PoisonedFree(_) => 0
    case FreeLoop(m) => if c == Pooled || c == Used then 0 - m else 0
    case FreePooled(m) => if c == Pooled || c == Used then 0 - m else 0
    case FreeUsed(m) => if c == Used then 0 - m else 0
    case AllocFirst(r, u, _, _) =>
      if c == Used then r + u else if c == Ready then 0 - r else if c == Uncleared then 0 - u else 0
    case AllocSecond(r, u, _, clear) =>
      if c == Used then r + u else if clear && c == Uncleared then 0 - u else if !clear && c == Ready then 0 - r else 0
    case AllocUsed(g, _, _) => if c == Used then g else 0
    case SlowLoop(_, g, _, _) => if c == Pooled || c == Used then g else 0
    case SlowPooled(g) => if c == Pooled || c == Used then g else 0
    case SlowUsed(g) => if c == Used then g else 0
    case IsolatePooled(r) => if c == Pooled || c == IsolateFrom(r) then -1 else 0
    case IsolateList(r) => if c == IsolateFrom(r) then -1 else 0
  }

  function ContractDue(u: nat, r: nat, c: Counter): int {
    match c case Pooled => 0 - u - r case Used => 0 case Ready => 0 - r case Uncleared => 0 - u
  }

  function IsolateFrom(wasReady: bool): Counter { if wasReady then Ready else Uncleared }

  function ClearerDue(w: Clearer, c: Counter): int {
    match w
    case AddReady => if c == Uncleared then 1 else 0
    case MoveToReady => if c == Uncleared then 1 else if c == Ready then -1 else 0
    case _ => 0
  }

  function AllDue(ts: seq<Thread>, c: Counter): int {
    if ts == [] then 0 else AllDue(ts[..|ts| - 1], c) + DueOf(ts[|ts| - 1], c)
  }

  lemma {:induction false} DueUpdate(ts: seq<Thread>, i: nat, t: Thread, c: Counter)
    requires i < |ts|
    ensures AllDue(ts[i := t], c) + DueOf(ts[i], c) == AllDue(ts, c) + DueOf(t, c)
  {
    hide DueOf;
    var n := |ts| - 1;
    if i == n {
      assert ts[i := t][..n] == ts[..n];
    } else {
      DueUpdate(ts[..n], i, t, c);
      assert ts[i := t][..n] == ts[..n][i := t];
    }
  }

  // ---------------------------------------------------------------- where the segments are

  function One(o: Option<nat>): multiset<nat> {
    if o.None? then multiset{} else multiset{o.value}
  }

  /** Segments that only this thread holds. */
  function Private(t: Thread): multiset<nat> {
    match t
    case ExpandLoop(_, _, node) => One(node)
    case SlowLoop(_, _, node, _) => One(node)
    case ContractFree(todo, _, _) => multiset(todo)
    case PoisonedFree(todo) => multiset(todo)
    case _ => multiset{}
  }

  function AllPrivate(ts: seq<Thread>): multiset<nat> {
    if ts == [] then multiset{} else AllPrivate(ts[..|ts| - 1]) + Private(ts[|ts| - 1])
  }

  lemma {:induction false} PrivateUpdate(ts: seq<Thread>, i: nat, t: Thread)
    requires i < |ts|
    ensures AllPrivate(ts[i := t]) + Private(ts[i]) == AllPrivate(ts) + Private(t)
  {
    hide Private;
    var n := |ts| - 1;
    if i == n {
      assert ts[i := t][..n] == ts[..n];
    } else {
      PrivateUpdate(ts[..n], i, t);
      assert ts[i := t][..n] == ts[..n][i := t];
      var x, y, z := AllPrivate(ts[..n][i := t]), AllPrivate(ts[..n]), Private(ts[n]);
      assert x + z + Private(ts[i]) == (x + Private(ts[i])) + z == (y + Private(t)) + z;
    }
  }

  /** All segments: uncleared, being cleared, ready, poisoned, with callers, in the source, in passage. */
  function Everything(s: Pool): multiset<nat> {
    multiset(s.uncleared) + One(s.clearing) + multiset(s.ready) + multiset(s.poisoned) + s.out + s.source
    + AllPrivate(s.ts)
  }

  // ---------------------------------------------------------------- the invariant

  /** Every counter, with what is still due, is the length of its lists; and pooled memory is what is
      used, ready or uncleared. */
  predicate Counters(s: Pool) {
    && s.unclearedSize + TotalDue(s, Uncleared) == |s.uncleared| + |One(s.clearing)|
    && s.readySize + TotalDue(s, Ready) == |s.ready|
    && s.used + TotalDue(s, Used) == |s.out|
    && s.pooled + TotalDue(s, Pooled) == |s.out| + |s.ready| + |s.uncleared| + |One(s.clearing)|
  }

  /** All that is still due for a counter. */
  function TotalDue(s: Pool, c: Counter): int { AllDue(s.ts, c) + ClearerDue(s.clearer, c) }

  predicate ClearerOk(s: Pool) {
    && (s.clearer == Resting <==> s.clearing == None)
    && (s.clearer != Resting && s.clearer != Clearing ==> s.clearing.value in s.clean)
  }

  predicate ReadyClean(s: Pool) {
    forall k :: 0 <= k < |s.ready| ==> s.ready[k] in s.clean
  }

  /** No segment is twice anywhere. */
  ghost predicate Single(m: multiset<nat>) {
    forall x :: m[x] <= 1
  }

  ghost predicate Inv(s: Pool, universe: multiset<nat>) {
    Everything(s) == universe && Single(universe) && Counters(s) && ClearerOk(s) && ReadyClean(s)
  }

  predicate Init(s: Pool) {
    && s.uncleared == [] && s.clearing == None && s.ready == [] && s.poisoned == [] && s.out == multiset{}
    && s.pooled == 0 && s.used == 0 && s.readySize == 0 && s.unclearedSize == 0 && s.clearer == Resting
    && forall i :: 0 <= i < |s.ts| ==> s.ts[i].Idle?
  }

  lemma {:induction false} IdleDue(ts: seq<Thread>, c: Counter)
    requires forall i :: 0 <= i < |ts| ==> ts[i].Idle?
    ensures AllDue(ts, c) == 0
  {
    if ts != [] {
      IdleDue(ts[..|ts| - 1], c);
    }
  }

  lemma {:induction false} IdlePrivate(ts: seq<Thread>)
    requires forall i :: 0 <= i < |ts| ==> ts[i].Idle?
    ensures AllPrivate(ts) == multiset{}
  {
    if ts != [] {
      IdlePrivate(ts[..|ts| - 1]);
    }
  }

  lemma InitInv(s: Pool)
    requires Init(s) && Single(s.source)
    ensures Inv(s, s.source)
  {
    IdleDue(s.ts, Pooled);
    IdleDue(s.ts, Used);
    IdleDue(s.ts, Ready);
    IdleDue(s.ts, Uncleared);
    IdlePrivate(s.ts);
    hide AllDue, AllPrivate, DueOf, Private;
    assert Everything(s) == s.source;
  }

  // ---------------------------------------------------------------- the counters

  lemma CutSplit(l: seq<nat>, k: nat)
    requires k <= |l|
    ensures multiset(l) == multiset(l[..k]) + multiset(l[k..])
  {
    assert l == l[..k] + l[k..];
  }

  lemma WithoutSplit(l: seq<nat>, k: nat)
    requires k < |l|
    ensures multiset(l) == multiset(Without(l, k)) + multiset{l[k]} && |Without(l, k)| == |l| - 1
  {
    assert l == l[..k] + [l[k]] + l[k + 1..];
  }

  // ---------------------------------------------------------------- one step of a thread

  /** The lists and counters change by what the thread's own share changes. */
  predicate Balanced(s: Pool, s': Pool, t: Thread, t': Thread) {
    && s'.clearing == s.clearing && s'.clearer == s.clearer
    && s'.unclearedSize + DueOf(t', Uncleared) - |s'.uncleared| == s.unclearedSize + DueOf(t, Uncleared) - |s.uncleared|
    && s'.readySize + DueOf(t', Ready) - |s'.ready| == s.readySize + DueOf(t, Ready) - |s.ready|
    && s'.used + DueOf(t', Used) - |s'.out| == s.used + DueOf(t, Used) - |s.out|
    && s'.pooled + DueOf(t', Pooled) - |s'.out| - |s'.ready| - |s'.uncleared|
       == s.pooled + DueOf(t, Pooled) - |s.out| - |s.ready| - |s.uncleared|
  }

  /** Segments in lists and with the thread. */
  function Local(s: Pool, t: Thread): multiset<nat> {
    multiset(s.uncleared) + multiset(s.ready) + multiset(s.poisoned) + s.out + s.source + Private(t)
  }

  lemma StepKeeps(s: Pool, s': Pool, i: nat, universe: multiset<nat>)
    requires Inv(s, universe) && i < |s.ts| && |s'.ts| == |s.ts| && s'.ts == s.ts[i := s'.ts[i]]
    requires Balanced(s, s', s.ts[i], s'.ts[i]) && Local(s', s'.ts[i]) == Local(s, s.ts[i])
    requires ReadyClean(s') && ClearerOk(s')
    ensures Inv(s', universe)
  {
    hide DueOf, Private, AllDue, AllPrivate;
    var t, t' := s.ts[i], s'.ts[i];
    DueUpdate(s.ts, i, t', Pooled);
    DueUpdate(s.ts, i, t', Used);
    DueUpdate(s.ts, i, t', Ready);
    DueUpdate(s.ts, i, t', Uncleared);
    assert Counters(s');
    hide Counters, Balanced, ReadyClean, ClearerOk, Single;
    PrivateUpdate(s.ts, i, t');
    forall x: nat ensures Everything(s')[x] == Everything(s)[x] {
      assert (AllPrivate(s'.ts) + Private(t))[x] == (AllPrivate(s.ts) + Private(t'))[x];
      assert Local(s', t')[x] == Local(s, t)[x];
    }
    assert Everything(s') == Everything(s);
  }
}
