/** The contiguous memory pool: callers, the pool thread and the clear thread move segments between lists
    under one lock and update four counters outside it. Sizes are counted in granules. */
module MemPool {
  import opened Basics

  /** A thread inside one of the pool's operations, with the source's locals. A counter update that is
      still due is one of these steps. */
  datatype Thread =
    | Idle
    // conti_mem_allocator_expand
    | ExpandLoop(left: nat, added: nat, node: Option<nat>)
    | ExpandPooled(added: nat)
    | ExpandUncleared(added: nat)
    // conti_mem_allocator_contract
    | ContractFree(todo: seq<nat>, fromUncleared: nat, fromReady: nat)
    | ContractPooled(fromUncleared: nat, fromReady: nat)
    | ContractUncleared(fromUncleared: nat, fromReady: nat)
    | ContractReady(fromReady: nat)
    // conti_mem_allocator_free_poisoned
    | PoisonedFree(todo: seq<nat>)
    // conti_free_memory
    | FreeLoop(freed: nat)
    | FreePooled(freed: nat)
    | FreeUsed(freed: nat)
    // conti_alloc_memory
    | AllocFirst(fromReady: nat, fromUncleared: nat, missing: nat, clear: bool)
    | AllocSecond(fromReady: nat, fromUncleared: nat, missing: nat, clear: bool)
    | AllocUsed(got: nat, missing: nat, clear: bool)
    | SlowLoop(left: nat, got: nat, node: Option<nat>, clear: bool)
    | SlowPooled(got: nat)
    | SlowUsed(got: nat)
    // conti_mem_allocator_isolate_memseg
    | IsolatePooled(wasReady: bool)
    | IsolateList(wasReady: bool)

  /** The clear thread: idle, clearing without the lock, or with the lock held and updates due. */
  datatype Clearer = Resting | Clearing | SubUncleared | AddReady | MoveToReady

  /** `clean` is history: the segments cleared successfully since they left the source. */
  datatype Pool = Pool(
    uncleared: seq<nat>, clearing: Option<nat>, ready: seq<nat>, poisoned: seq<nat>,
    out: multiset<nat>, source: multiset<nat>,
    pooled: int, used: int, readySize: int, unclearedSize: int,
    clearer: Clearer, ts: seq<Thread>, clean: set<nat>)

  predicate LockFree(s: Pool) {
    s.clearer == Resting || s.clearer == Clearing
  }

  // ---------------------------------------------------------------- the lock sections

  /** What a contract of `n` takes: from the uncleared list first, then from the ready list. */
  function ContractFromUncleared(s: Pool, n: nat): nat { Min(n, |s.uncleared|) }
  function ContractFromReady(s: Pool, n: nat): nat { Min(n - ContractFromUncleared(s, n), |s.ready|) }

  /** What an allocation of `n` takes. Clear memory comes from the ready list, and from the uncleared list
      only if the slow path is allowed; other memory from the uncleared list first. */
  function AllocFromReady(s: Pool, n: nat, clear: bool): nat {
    if clear then Min(n, |s.ready|) else Min(n - Min(n, |s.uncleared|), |s.ready|)
  }

  function AllocFromUncleared(s: Pool, n: nat, clear: bool, slow: bool): nat {
    if !clear then Min(n, |s.uncleared|) else if slow then Min(n - Min(n, |s.ready|), |s.uncleared|) else 0
  }

  /** The segments an allocation takes. */
  function Cut(s: Pool, n: nat, clear: bool, slow: bool): seq<nat> {
    s.ready[..AllocFromReady(s, n, clear)] + s.uncleared[..AllocFromUncleared(s, n, clear, slow)]
  }

  function Without(l: seq<nat>, k: nat): seq<nat>
    requires k < |l|
  {
    l[..k] + l[k + 1..]
  }

  // ---------------------------------------------------------------- steps

  datatype Action =
    | Begin(i: nat, t: Thread)                        // expand, or free of caller's segments
    | Fetch(i: nat, seg: nat)                         // pool_alloc_memseg
    | AddUncleared(i: nat)
    | Contract(i: nat, n: nat)
    | TakePoisoned(i: nat)
    | Return(i: nat)                                  // pool_free_memseg of a private segment
    | GiveBack(i: nat, seg: nat)                      // pool_free_memseg of a caller's segment
    | Alloc(i: nat, n: nat, clear: bool, slow: bool)
    | SyncClear(i: nat, seg: nat, ok: bool)           // clear of a segment already handed out
    | SlowKeep(i: nat)
    | SlowDrop(i: nat)
    | Isolate(i: nat, k: nat, fromReady: bool)
    | Count(i: nat)                                   // the counter update that is due, or the end of a loop
    | StartClear
    | EndClear(ok: bool)
    | ClearCount

  predicate Runs(s: Pool, i: nat) { i < |s.ts| }

  function Set(s: Pool, i: nat, t: Thread): Pool
    requires i < |s.ts|
  {
    s.(ts := s.ts[i := t])
  }

  datatype Counter = Pooled | Used | Ready | Uncleared

  /** The thread's next step when it is a counter update: what is added to which counter, and then what. */
  datatype Update = Update(c: Counter, d: int, t: Thread)

  /** The counter updates, in the order of the source; leaving a loop adds nothing. */
  function NextUpdate(t: Thread): Update {
    match t
    case ExpandLoop(left, added, node) => Update(Pooled, 0, if node.None? then ExpandPooled(added) else t)
    case ExpandPooled(a) => Update(Pooled, a, ExpandUncleared(a))
    case ExpandUncleared(a) => Update(Uncleared, a, Idle)
    case ContractFree(todo, u, r) => Update(Pooled, 0, if todo == [] then ContractPooled(u, r) else t)
    case ContractPooled(u, r) => Update(Pooled, 0 - u - r, ContractUncleared(u, r))
    case ContractUncleared(u, r) => Update(Uncleared, 0 - u, ContractReady(r))
    case ContractReady(r) => Update(Ready, 0 - r, Idle)
    case PoisonedFree(todo) => Update(Pooled, 0, if todo == [] then Idle else t)
    case FreeLoop(m) => Update(Pooled, 0, FreePooled(m))
    case FreePooled(m) => Update(Pooled, 0 - m, FreeUsed(m))
    case FreeUsed(m) => Update(Used, 0 - m, Idle)
    case AllocFirst(r, u, m, c) =>
      Update(if c then Ready else Uncleared, if c then 0 - r else 0 - u, AllocSecond(r, u, m, c))
    case AllocSecond(r, u, m, c) =>
      Update(if c then Uncleared else Ready, if c then 0 - u else 0 - r, AllocUsed(r + u, m, c))
    case AllocUsed(g, m, c) => Update(Used, g, if m > 0 then SlowLoop(m, 0, None, c) else Idle)
    case SlowLoop(_, g, node, _) => Update(Pooled, 0, if node.None? then SlowPooled(g) else t)
    case SlowPooled(g) => Update(Pooled, g, SlowUsed(g))
    case SlowUsed(g) => Update(Used, g, Idle)
    case IsolatePooled(r) => Update(Pooled, -1, IsolateList(r))
    case IsolateList(r) => Update(if r then Ready else Uncleared, -1, Idle)
    case Idle => Update(Pooled, 0, Idle)
  }

  function Add(s: Pool, c: Counter, d: int): Pool {
    match c
    case Pooled => s.(pooled := s.pooled + d)
    case Used => s.(used := s.used + d)
    case Ready => s.(readySize := s.readySize + d)
    case Uncleared => s.(unclearedSize := s.unclearedSize + d)
  }

  function Counted(s: Pool, i: nat): Pool
    requires i < |s.ts|
  {
    var n := NextUpdate(s.ts[i]); Set(Add(s, n.c, n.d), i, n.t)
  }

  predicate Starts(t: Thread) {
    match t
    case ExpandLoop(left, added, node) => added == 0 && node == None
    case FreeLoop(freed) => freed == 0
    case _ => false
  }

  predicate FetchStep(s: Pool, s': Pool, i: nat, seg: nat) {
    && Runs(s, i) && seg in s.source
    && match s.ts[i]
       case ExpandLoop(left, added, None) =>
         && left > 0
         && s' == Set(s, i, ExpandLoop(left, added, Some(seg))).(
                    source := s.source - multiset{seg}, clean := s.clean - {seg})
       case SlowLoop(left, got, None, c) =>
         && left > 0
         && s' == Set(s, i, SlowLoop(left, got, Some(seg), c)).(
                    source := s.source - multiset{seg}, clean := s.clean - {seg})
       case _ => false
  }

  predicate AddStep(s: Pool, s': Pool, i: nat) {
    && Runs(s, i) && LockFree(s)
    && match s.ts[i]
       case ExpandLoop(left, added, Some(seg)) =>
         left > 0 && s' == Set(s, i, ExpandLoop(left - 1, added + 1, None)).(uncleared := s.uncleared + [seg])
       case _ => false
  }

  predicate ContractStep(s: Pool, s': Pool, i: nat, n: nat) {
    && Runs(s, i) && LockFree(s) && s.ts[i] == Idle
    && var u := ContractFromUncleared(s, n); var r := ContractFromReady(s, n);
       s' == Set(s, i,
                 ContractFree(s.uncleared[..u] + s.ready[..r], u,
                              r)).(uncleared := s.uncleared[u..], ready := s.ready[r..])
  }

  predicate PoisonedStep(s: Pool, s': Pool, i: nat) {
    Runs(s, i) && LockFree(s) && s.ts[i] == Idle && s' == Set(s, i, PoisonedFree(s.poisoned)).(poisoned := [])
  }

  predicate ReturnStep(s: Pool, s': Pool, i: nat) {
    && Runs(s, i)
    && match s.ts[i]
       case ContractFree(todo, u, r) =>
         |todo| > 0 && s' == Set(s, i, ContractFree(todo[1..], u, r)).(source := s.source + multiset{todo[0]})
       case PoisonedFree(todo) =>
         |todo| > 0 && s' == Set(s, i, PoisonedFree(todo[1..])).(source := s.source + multiset{todo[0]})
       case _ => false
  }

  predicate GiveBackStep(s: Pool, s': Pool, i: nat, seg: nat) {
    && Runs(s, i) && seg in s.out && s.ts[i].FreeLoop?
    && s' == Set(s, i, FreeLoop(s.ts[i].freed + 1)).(out := s.out - multiset{seg}, source := s.source + multiset{seg})
  }

  predicate AllocStep(s: Pool, s': Pool, i: nat, n: nat, clear: bool, slow: bool) {
    && Runs(s, i) && LockFree(s) && s.ts[i] == Idle
    && var r := AllocFromReady(s, n, clear); var u := AllocFromUncleared(s, n, clear, slow);
       s' == Set(s, i, AllocFirst(r, u, if slow then n - r - u else 0, clear)).(
               ready := s.ready[r..], uncleared := s.uncleared[u..], out := s.out + multiset(Cut(s, n, clear, slow)))
  }

  predicate SlowKeepStep(s: Pool, s': Pool, i: nat) {
    && Runs(s, i)
    && match s.ts[i]
       case SlowLoop(left, got, Some(seg), c) =>
         && left > 0
         && s' == Set(s, i,
                      SlowLoop(left - 1, got + 1, None,
                               c)).(out := s.out + multiset{seg}, clean := if c then s.clean + {seg} else s.clean)
       case _ => false
  }

  predicate SlowDropStep(s: Pool, s': Pool, i: nat) {
    && Runs(s, i)
    && match s.ts[i]
       case SlowLoop(_, got, Some(seg), c) => c && s' == Set(s, i, SlowPooled(got)).(source := s.source + multiset{seg})
       case _ => false
  }

  predicate IsolateReadyStep(s: Pool, s': Pool, i: nat, k: nat) {
    && Runs(s, i) && LockFree(s) && s.ts[i] == Idle && k < |s.ready|
    && s' == Set(s, i, IsolatePooled(true)).(ready := Without(s.ready, k), poisoned := [s.ready[k]] + s.poisoned)
  }

  predicate IsolateUnclearedStep(s: Pool, s': Pool, i: nat, k: nat) {
    && Runs(s, i) && LockFree(s) && s.ts[i] == Idle && k < |s.uncleared|
    && s' == Set(s, i, IsolatePooled(false)).(uncleared := Without(s.uncleared, k),
                                              poisoned := [s.uncleared[k]] + s.poisoned)
  }

  predicate StartClearStep(s: Pool, s': Pool) {
    && s.clearer == Resting && |s.uncleared| > 0
    && s' == s.(clearer := Clearing, clearing := Some(s.uncleared[0]), uncleared := s.uncleared[1..])
  }

  predicate EndClearStep(s: Pool, s': Pool, ok: bool) {
    && s.clearer == Clearing && s.clearing.Some?
    && s' == if ok then s.(clearer := SubUncleared, clean := s.clean + {s.clearing.value})
             else s.(clearer := Resting, clearing := None, uncleared := [s.clearing.value] + s.uncleared)
  }

  predicate ClearCountStep(s: Pool, s': Pool) {
    match s.clearer
    case SubUncleared => s' == s.(clearer := AddReady, unclearedSize := s.unclearedSize - 1)
    case AddReady => s' == s.(clearer := MoveToReady, readySize := s.readySize + 1)
    case MoveToReady =>
      s.clearing.Some? && s' == s.(clearer := Resting, clearing := None, ready := [s.clearing.value] + s.ready)
    case _ => false
  }

  predicate NextBy(s: Pool, s': Pool, a: Action) {
    match a
    case Begin(i, t) => Runs(s, i) && s.ts[i] == Idle && Starts(t) && s' == Set(s, i, t)
    case Fetch(i, seg) => FetchStep(s, s', i, seg)
    case AddUncleared(i) => AddStep(s, s', i)
    case Contract(i, n) => ContractStep(s, s', i, n)
    case TakePoisoned(i) => PoisonedStep(s, s', i)
    case Return(i) => ReturnStep(s, s', i)
    case GiveBack(i, seg) => GiveBackStep(s, s', i, seg)
    case Alloc(i, n, clear, slow) => AllocStep(s, s', i, n, clear, slow)
    case SyncClear(i, seg, ok) => Runs(s, i) && seg in s.out && s' == if ok then s.(clean := s.clean + {seg}) else s
    case SlowKeep(i) => SlowKeepStep(s, s', i)
    case SlowDrop(i) => SlowDropStep(s, s', i)
    case Isolate(i, k, fromReady) =>
      if fromReady then IsolateReadyStep(s, s', i, k) else IsolateUnclearedStep(s, s', i, k)
    case Count(i) => Runs(s, i) && s' == Counted(s, i)
    case StartClear => StartClearStep(s, s')
    case EndClear(ok) => EndClearStep(s, s', ok)
    case ClearCount => ClearCountStep(s, s')
  }
}
