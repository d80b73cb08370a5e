/** Deleting a JFC or JFS while event handlers may be using it: a table under a lock, a reference count
    and a completion. Any number of threads, each a handler or a deleter, in any interleaving. */
module Teardown {

  /** Where a thread is. `Handling`: it found the object and took a reference. `Signalling`: its decrement
      was the last one and it is about to complete. The other four are the deleter's. */
  datatype Pc = Idle | Handling | Signalling | Removed | DelSignalling | Waiting | Freeing

  datatype Who = Nobody | Thread(i: nat)

  /** `signals`, `deleter` and `signaller` are history. */
  datatype State = State(
    inTable: bool, ref: nat, done: nat, freed: bool, ts: seq<Pc>,
    signals: nat, deleter: Who, signaller: Who)

  datatype Action =
    Find(i: nat) | Finish(i: nat) | Complete(i: nat) | Remove(i: nat) | Drop(i: nat) | Wake(i: nat) | Free(i: nat)

  predicate Init(s: State) {
    && s.inTable && s.ref == 1 && s.done == 0 && !s.freed && s.signals == 0 && s.deleter == Nobody
    && s.signaller == Nobody
    && forall i :: 0 <= i < |s.ts| ==> s.ts[i] == Idle
  }

  predicate At(s: State, i: nat, pc: Pc) {
    i < |s.ts| && s.ts[i] == pc
  }

  /** One atomic step of a thread. Looking up an object that is no longer in the table changes nothing. */
  predicate NextBy(s: State, s': State, a: Action) {
    match a
    case Find(i) => At(s, i, Idle) && s.inTable && s' == s.(ref := s.ref + 1, ts := s.ts[i := Handling])
    case Finish(i) =>
      && At(s, i, Handling) && s.ref > 0
      && s' == if s.ref == 1 then s.(ref := 0, ts := s.ts[i := Signalling],
                                     signaller := Thread(i)) else s.(ref := s.ref - 1, ts := s.ts[i := Idle])
    case Complete(i) =>
      && (At(s, i, Signalling) || At(s, i, DelSignalling))
      && s' == if s.ts[i] == Signalling
               then s.(done := s.done + 1, signals := s.signals + 1, ts := s.ts[i := Idle], signaller := Nobody)
               else s.(done := s.done + 1, signals := s.signals + 1, ts := s.ts[i := Waiting])
    case Remove(i) =>
      At(s, i, Idle) && s.inTable && s' == s.(inTable := false, ts := s.ts[i := Removed], deleter := Thread(i))
    case Drop(i) =>
      && At(s, i, Removed) && s.ref > 0
      && s' == s.(ref := s.ref - 1, ts := s.ts[i := if s.ref == 1 then DelSignalling else Waiting])
    case Wake(i) => At(s, i, Waiting) && s.done > 0 && s' == s.(done := s.done - 1, ts := s.ts[i := Freeing])
    case Free(i) => At(s, i, Freeing) && s' == s.(freed := true, ts := s.ts[i := Idle], deleter := Nobody)
  }

  ghost predicate Next(s: State, s': State) {
    exists a :: NextBy(s, s', a)
  }

  ghost predicate IsRun(run: seq<State>) {
    |run| > 0 && Init(run[0]) && forall n :: 0 <= n < |run| - 1 ==> Next(run[n], run[n + 1])
  }

  // ---------------------------------------------------------------- counting handlers

  function One(pc: Pc): nat { if pc == Handling then 1 else 0 }

  function Handlers(ts: seq<Pc>): nat {
    if ts == [] then 0 else Handlers(ts[..|ts| - 1]) + One(ts[|ts| - 1])
  }

  lemma {:induction false} HandlersUpdate(ts: seq<Pc>, i: nat, pc: Pc)
    requires i < |ts|
    ensures Handlers(ts[i := pc]) + One(ts[i]) == Handlers(ts) + One(pc)
  {
    var n := |ts| - 1;
    if i == n {
      assert ts[i := pc][..n] == ts[..n];
    } else {
      HandlersUpdate(ts[..n], i, pc);
      assert ts[i := pc][..n] == ts[..n][i := pc];
    }
  }

  lemma {:induction false} HandlersAtLeast(ts: seq<Pc>, i: nat)
    requires i < |ts| && ts[i] == Handling
    ensures Handlers(ts) >= 1
  {
    if i < |ts| - 1 {
      HandlersAtLeast(ts[..|ts| - 1], i);
    }
  }

  lemma {:induction false} NoHandlers(ts: seq<Pc>)
    requires forall i :: 0 <= i < |ts| ==> ts[i] != Handling
    ensures Handlers(ts) == 0
  {
    if ts != [] {
      NoHandlers(ts[..|ts| - 1]);
    }
  }

  // ---------------------------------------------------------------- the invariant

  predicate Deleting(pc: Pc) {
    pc == Removed || pc == DelSignalling || pc == Waiting || pc == Freeing
  }

  predicate Roles(s: State) {
    && (forall i :: 0 <= i < |s.ts| ==> (Deleting(s.ts[i]) <==> s.deleter == Thread(i)))
    && (forall i :: 0 <= i < |s.ts| ==> (s.ts[i] == Signalling <==> s.signaller == Thread(i)))
    && (s.deleter.Thread? ==> s.deleter.i < |s.ts|) && (s.signaller.Thread? ==> s.signaller.i < |s.ts|)
  }

  predicate Counts(s: State) {
    var h := Handlers(s.ts);
    if s.deleter == Nobody then
      if s.freed then !s.inTable && s.ref == 0 && h == 0 && s.signals == 1 && s.done == 0 && s.signaller == Nobody
      else s.inTable && s.ref == h + 1 && s.signals == 0 && s.done == 0 && s.signaller == Nobody
    else
      && !s.inTable && !s.freed && s.deleter.i < |s.ts|
      && match s.ts[s.deleter.i]
         case Removed => s.ref == h + 1 && s.signals == 0 && s.done == 0 && s.signaller == Nobody
         case DelSignalling => s.ref == 0 && h == 0 && s.signals == 0 && s.done == 0 && s.signaller == Nobody
         case Waiting =>
           && s.ref == h && s.done == s.signals
           && s.signals + (if s.signaller == Nobody then 0 else 1) == (if h == 0 then 1 else 0)
         case _ => s.ref == 0 && h == 0 && s.signals == 1 && s.done == 0 && s.signaller == Nobody
  }

  predicate Inv(s: State) { Roles(s) && Counts(s) }

  lemma InitInv(s: State)
    requires Init(s)
    ensures Inv(s)
  {
    NoHandlers(s.ts);
  }

  lemma StepInv(s: State, s': State, a: Action)
    requires Inv(s) && NextBy(s, s', a)
    ensures Inv(s')
  {
    hide Handlers;
    HandlersUpdate(s.ts, a.i, s'.ts[a.i]);
    if At(s, a.i, Handling) {
      HandlersAtLeast(s.ts, a.i);
    }
  }

  lemma {:induction false} RunInv(run: seq<State>, n: nat)
    requires IsRun(run) && n < |run|
    ensures Inv(run[n])
  {
    if n == 0 {
      InitInv(run[0]);
    } else {
      RunInv(run, n - 1);
      assert Next(run[n - 1], run[n - 1 + 1]);
      var a :| NextBy(run[n - 1], run[n], a);
      StepInv(run[n - 1], run[n], a);
    }
  }

  // ---------------------------------------------------------------- what it means

  /** Once freed, no thread is at a place where it uses the object, and it cannot be found. */
  lemma FreedUnused(run: seq<State>, n: nat, i: nat)
    requires IsRun(run) && n < |run| && run[n].freed && i < |run[n].ts|
    ensures run[n].ts[i] == Idle && !run[n].inTable
  {
    RunInv(run, n);
    if run[n].ts[i] == Handling {
      HandlersAtLeast(run[n].ts, i);
    }
  }

  /** The completion is signalled at most once, and exactly once before the object is freed. */
  lemma SignalledOnce(run: seq<State>, n: nat)
    requires IsRun(run) && n < |run|
    ensures run[n].signals <= 1 && (run[n].freed ==> run[n].signals == 1)
  {
    RunInv(run, n);
  }

  /** After the removal no handler starts: at every later state the object is out of the table and no more
      handlers are at work than were then. */
  lemma {:induction false} NoLateHandler(run: seq<State>, n: nat, m: nat)
    requires IsRun(run) && n <= m < |run| && !run[n].inTable
    ensures !run[m].inTable && Handlers(run[m].ts) <= Handlers(run[n].ts)
  {
    hide Handlers, NextBy, Init;
    if n < m {
      NoLateHandler(run, n, m - 1);
      assert Next(run[m - 1], run[m - 1 + 1]);
      var a :| NextBy(run[m - 1], run[m], a);
      LateStep(run[m - 1], run[m], a);
    }
  }

  lemma LateStep(s: State, s': State, a: Action)
    requires !s.inTable && NextBy(s, s', a)
    ensures !s'.inTable && Handlers(s'.ts) <= Handlers(s.ts)
  {
    hide Handlers;
    HandlersUpdate(s.ts, a.i, s'.ts[a.i]);
  }

  /** The step that frees comes when every handler that found the object has finished. */
  lemma FreedAfterHandlers(run: seq<State>, n: nat)
    requires IsRun(run) && n + 1 < |run| && !run[n].freed && run[n + 1].freed
    ensures Handlers(run[n].ts) == 0 && run[n].ref == 0 && forall i :: 0 <= i < |run[n].ts| ==>
              run[n].ts[i] == Idle || run[n].ts[i] == Freeing
  {
    RunInv(run, n);
    var s := run[n];
    assert Next(run[n], run[n + 1]);
    var a :| NextBy(run[n], run[n + 1], a);
    forall i | 0 <= i < |s.ts| ensures s.ts[i] == Idle || s.ts[i] == Freeing {
      if s.ts[i] == Handling {
        HandlersAtLeast(s.ts, i);
      }
    }
  }

  /** While a deleter waits, a handler is still at work, or the completion is there or about to be. */
  lemma WaiterNotLost(run: seq<State>, n: nat, i: nat)
    requires IsRun(run) && n < |run| && At(run[n], i, Waiting)
    ensures Handlers(run[n].ts) > 0 || run[n].done > 0 || run[n].signaller != Nobody
  {
    RunInv(run, n);
  }

  // ---------------------------------------------------------------- the deletion ends

  /** Steps that a thread has still to take once the object is out of the table. */
  function Left(pc: Pc): nat {
    match pc
    case Idle => 0
    case Handling => 2
    case Signalling => 1
    case Removed => 4
    case DelSignalling => 3
    case Waiting => 2
    case Freeing => 1
  }

  function Work(ts: seq<Pc>): nat {
    if ts == [] then 0 else Work(ts[..|ts| - 1]) + Left(ts[|ts| - 1])
  }

  lemma {:induction false} WorkUpdate(ts: seq<Pc>, i: nat, pc: Pc)
    requires i < |ts|
    ensures Work(ts[i := pc]) + Left(ts[i]) == Work(ts) + Left(pc)
  {
    var n := |ts| - 1;
    if i == n {
      assert ts[i := pc][..n] == ts[..n];
    } else {
      WorkUpdate(ts[..n], i, pc);
      assert ts[i := pc][..n] == ts[..n][i := pc];
    }
  }

  lemma {:induction false} SomeHandler(ts: seq<Pc>) returns (i: nat)
    requires Handlers(ts) > 0
    ensures i < |ts| && ts[i] == Handling
  {
    i := |ts| - 1;
    if ts[i] != Handling {
      i := SomeHandler(ts[..i]);
    }
  }

  /** After the removal every step is one of those left, so only so many can follow. */
  lemma {:induction false} DeletionBounded(run: seq<State>, n: nat, m: nat)
    requires IsRun(run) && n <= m < |run| && !run[n].inTable
    ensures Work(run[m].ts) + (m - n) <= Work(run[n].ts)
  {
    hide Work, Handlers, NextBy, Init;
    if n < m {
      DeletionBounded(run, n, m - 1);
      NoLateHandler(run, n, m - 1);
      assert Next(run[m - 1], run[m - 1 + 1]);
      var a :| NextBy(run[m - 1], run[m], a);
      WorkStep(run[m - 1], run[m], a);
    }
  }

  lemma WorkStep(s: State, s': State, a: Action)
    requires !s.inTable && NextBy(s, s', a)
    ensures Work(s'.ts) < Work(s.ts)
  {
    hide Work;
    WorkUpdate(s.ts, a.i, s'.ts[a.i]);
  }

  /** And until the object is freed a step can be taken: with the bound, every deletion ends with the free. */
  lemma DeletionGoesOn(run: seq<State>, n: nat) returns (s': State)
    requires IsRun(run) && n < |run| && !run[n].inTable && !run[n].freed
    ensures Next(run[n], s')
  {
    RunInv(run, n);
    var s := run[n];
    var d := s.deleter.i;
    var a: Action;
    match s.ts[d] {
      case Removed =>
        a, s' := Drop(d), s.(ref := s.ref - 1, ts := s.ts[d := if s.ref == 1 then DelSignalling else Waiting]);
      case DelSignalling =>
        a, s' := Complete(d), s.(done := s.done + 1, signals := s.signals + 1, ts := s.ts[d := Waiting]);
      case Freeing =>
        a, s' := Free(d), s.(freed := true, ts := s.ts[d := Idle], deleter := Nobody);
      case Waiting =>
        a, s' := WaiterGoes(s, d);
    }
    assert NextBy(s, s', a);
  }

  /** A waiting deleter wakes, or the signaller completes, or a handler finishes. */
  lemma WaiterGoes(s: State, d: nat) returns (a: Action, s': State)
    requires Inv(s) && s.deleter == Thread(d) && At(s, d, Waiting)
    ensures NextBy(s, s', a)
  {
    hide Handlers;
    if s.done > 0 {
      a, s' := Wake(d), s.(done := s.done - 1, ts := s.ts[d := Freeing]);
    } else if s.signaller != Nobody {
      var i := s.signaller.i;
      a, s' := Complete(i), s.(done := s.done + 1, signals := s.signals + 1, ts := s.ts[i := Idle],
                               signaller := Nobody);
    } else {
      var i := SomeHandler(s.ts);
      a := Finish(i);
      s' := if s.ref == 1 then s.(ref := 0, ts := s.ts[i := Signalling],
                                  signaller := Thread(i)) else s.(ref := s.ref - 1, ts := s.ts[i := Idle]);
    }
  }
}
