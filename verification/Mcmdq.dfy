/** The multi-producer command queue (`ummu_mcmdq_issue_cmdlist`) as a step machine.

    Any number of CPUs insert command lists into one ring while the hardware consumes it. A step is
    one atomic access of the source (a load, a store, a compare-and-exchange, a fetch-and-modify,
    one word of the valid map) or a private computation between two of them; the steps of all CPUs
    and of the hardware interleave freely and sequentially consistently.

    `Shared` holds the 32-bit words the CPUs really share, and beside them the history of the run:
    the log of reserved slots and the unbounded counters the words stand for. No step reads the
    history to decide anything. */
module Mcmdq {
  import opened Arith
  import opened Basics
  import opened Ring
  import opened ValidMap

  const INT_MIN: int := -0x8000_0000

  datatype Cmd = Op(word: nat) | Sync | Zeroed

  /** `k`: log2 of the ring size; `msi`: CMD_SYNC completion is polled in the ring itself;
      `cpus`: number of CPUs that share the queue. */
  datatype Config = Config(k: nat, msi: bool, cpus: nat)

  predicate Legal(c: Config) {
    6 <= c.k <= 30 && c.cpus < OVERFLOW_FLAG
  }

  function Size(c: Config): (n: nat)
    ensures n >= 1
  {
    Pow2(c.k)
  }

  /** One reserved slot: its command, the CPU that reserved it, whether the command has been stored
      in the ring, and whether the slot has been marked valid. */
  datatype Slot = Slot(cmd: Cmd, who: nat, written: bool, done: bool)

  datatype Shared = Shared(
    prod: nat,            // llq.prod, bit 31 is the owned flag
    cons: nat,            // llq.cons, the shadow of the hardware's consumer pointer
    lock: int,            // > 0: shared holders, < 0: held exclusively
    valid: seq<bool>,     // valid_map
    buf: seq<Cmd>,        // the ring
    ownerProd: nat,       // owner_prod
    hwProd: nat,          // prod_reg
    hwCons: nat,          // wrap bit and index of cons_reg
    // history
    log: seq<Slot>,       // every slot ever reserved, in reservation order
    shadow: nat,          // counter shown by cons
    gather: nat,          // first slot not yet claimed for publication by an owner
    handed: nat,          // counter shown by ownerProd
    published: nat,       // counter shown by hwProd
    executed: seq<Cmd>,   // what the hardware has consumed
    holders: set<nat>,    // CPUs that hold the lock shared
    excl: Option<nat>,    // CPU that holds it exclusively
    late: set<nat>,       // CPUs whose increment hit the exclusively held lock
    writer: Option<nat>,  // holder that found itself to be the last one
    wc: nat               // counter that holder is going to store
  )

  datatype Pc =
    | Idle
    // 1. reserve space
    | Load | Check | Cas | NoSpace | ExclRead | ExclWrite | ExclUnlock | Spin
    // 2. write the commands; take the lock shared when a CMD_SYNC is appended
    | Write | LockInc | LockSpin | LockCas
    // 3. mark the slots valid
    | Mark
    // 4. owner duties
    | WaitOwner | Close | Poll | Publish | HandOver
    // 5. wait for the CMD_SYNC
    | SyncLoad | MsiPoll | SyncCheck | SyncRead | TryUnlock | WriteCons | UnlockWrote | Unlock

  datatype Thread = Thread(
    pc: Pc,
    cmds: seq<Cmd>, sync: bool,   // arguments
    prod: nat, cons: nat,         // private copy of llq; prod becomes the first slot reserved
    head: nat,                    // pointer behind the reserved slots
    owner: bool,
    walk: nat,                    // pointer of the valid-map walk
    close: nat,                   // prod fetched when the owned flag was cleared
    seen: int,                    // lock value read before the compare-and-exchange
    // history
    start: nat,                   // counter shown by prod
    pos: nat,                     // entries written so far, later the counter shown by walk
    closeEnd: nat,                // counter shown by close
    lc: nat,                      // counter shown by cons
    recent: bool,                  // cons was read from the hardware (or derived from the MSI)
    ok: bool                      // the CMD_SYNC was seen to complete
  )

  datatype State = State(sh: Shared, ts: seq<Thread>)

  /** What the outside world contributes to a step: the value returned by a read of cons_reg, and
      whether a polling loop has run out of time. */
  datatype Env = Env(value: nat, timeout: bool)

  function Ptr(k: nat, x: nat): nat {
    Wrp(k, x) + Idx(k, x)
  }

  function ClearFlag(p: nat): nat {
    if p >= Ovf(p) then p - Ovf(p) else p
  }

  function SetFlag(p: nat): nat {
    if Ovf(p) == 0 then p + OVERFLOW_FLAG else p
  }

  function Content(t: Thread): seq<Cmd> {
    t.cmds + (if t.sync then [Sync] else [])
  }

  function Total(t: Thread): nat {
    |t.cmds| + (if t.sync then 1 else 0)
  }

  function Put(buf: seq<Cmd>, j: nat, cmd: Cmd): seq<Cmd> {
    if j < |buf| then buf[j := cmd] else buf
  }

  function Get(buf: seq<Cmd>, j: nat): Cmd {
    if j < |buf| then buf[j] else Zeroed
  }

  /** A read of cons_reg: wrap bit and index of the hardware's pointer, any status bits above. */
  predicate CanRead(c: Config, sh: Shared, v: nat) {
    v < U32 && At(c.k, v, sh.hwCons)
  }

  // ---------------------------------------------------------------- shared-state updates

  function NewSlots(i: nat, cmds: seq<Cmd>): (r: seq<Slot>)
    ensures |r| == |cmds|
    ensures forall x :: 0 <= x < |r| ==> r[x] == Slot(cmds[x], i, false, false)
  {
    seq(|cmds|, x requires 0 <= x < |cmds| => Slot(cmds[x], i, false, false))
  }

  function MarkWritten(log: seq<Slot>, x: nat): (r: seq<Slot>)
    ensures |r| == |log|
    ensures forall y :: 0 <= y < |log| ==> r[y] == (if y == x then log[y].(written := true) else log[y])
  {
    if x < |log| then log[x := log[x].(written := true)] else log
  }

  function MarkDone(log: seq<Slot>, x: nat, n: nat): (r: seq<Slot>)
    ensures |r| == |log|
    ensures forall y :: 0 <= y < |log| ==> r[y] == (if x <= y < x + n then log[y].(done := true) else log[y])
  {
    seq(|log|, y requires 0 <= y < |log| => if x <= y < x + n then log[y].(done := true) else log[y])
  }

  /** The successful compare-and-exchange on (prod, cons). */
  function Reserve(c: Config, sh: Shared, i: nat, t: Thread): Shared {
    sh.(prod := SetFlag(IncProd(c.k, t.prod, Total(t))),
        log := sh.log + NewSlots(i, Content(t)))
  }

  function StoreEntry(c: Config, sh: Shared, t: Thread): Shared
    requires t.pos < Total(t)
  {
    sh.(buf := Put(sh.buf, Idx(c.k, IncProd(c.k, t.prod, t.pos)), Content(t)[t.pos]),
        log := MarkWritten(sh.log, t.start + t.pos))
  }

  function Flip(c: Config, sh: Shared, t: Thread): Shared {
    var n := Chunk(c.k, t.walk, t.head);
    sh.(valid := FlipRange(sh.valid, Idx(c.k, t.walk), n),
        log := MarkDone(sh.log, t.pos, n))
  }

  function StoreCons(sh: Shared, v: nat, x: nat): Shared {
    sh.(cons := v, shadow := x)
  }

  function TakeShared(sh: Shared, i: nat): Shared {
    sh.(lock := sh.lock + 1, holders := sh.holders + {i})
  }

  function DropShared(sh: Shared, i: nat): Shared {
    sh.(lock := sh.lock - 1, holders := sh.holders - {i},
        writer := if sh.writer == Some(i) then None else sh.writer)
  }

  // ---------------------------------------------------------------- the steps

  datatype Next = Blocked | Go(sh: Shared, t: Thread)

  function AfterSync(t: Thread): Pc {
    if t.sync then SyncLoad else Idle
  }

  /** One step of CPU `i`, whose private state is `t`. */
  function Step(c: Config, sh: Shared, i: nat, t: Thread, env: Env): Next {
    match t.pc
    case Idle => Blocked
    case Load => Go(sh, t.(prod := sh.prod, cons := sh.cons, pc := Check))
    case Check => Go(sh, t.(pc := if HasSpace(c.k, t.prod, t.cons, Total(t)) then Cas else NoSpace))
    case Cas =>
      if sh.prod == t.prod && sh.cons == t.cons then
        Go(Reserve(c, sh, i, t),
           t.(pc := Write, owner := Ovf(t.prod) == 0, prod := ClearFlag(t.prod),
              head := ClearFlag(IncProd(c.k, t.prod, Total(t))),
              start := |sh.log|, pos := 0))
      else
        Go(sh, t.(prod := sh.prod, cons := sh.cons, pc := Check))
    case NoSpace =>
      if sh.lock == 0 then
        Go(sh.(lock := INT_MIN, excl := Some(i), late := {}), t.(pc := ExclRead))
      else
        Go(sh, t.(pc := Spin))
    case ExclRead =>
      if CanRead(c, sh, env.value)
      then Go(sh, t.(cons := env.value, lc := |sh.executed|, pc := ExclWrite)) else Blocked
    case ExclWrite => Go(StoreCons(sh, t.cons, t.lc), t.(pc := ExclUnlock))
    case ExclUnlock => Go(sh.(lock := 0, excl := None, late := {}), t.(pc := Load))
    case Spin =>
      Go(sh, t.(prod := sh.prod, cons := sh.cons,
                pc := if !Full(c.k, sh.prod, sh.cons) || env.timeout then Check else Spin))
    case Write =>
      if t.pos < Total(t) then Go(StoreEntry(c, sh, t), t.(pos := t.pos + 1))
      else Go(sh, t.(pc := if t.sync then LockInc else Mark, walk := t.prod, pos := t.start))
    case LockInc =>
      if sh.lock >= 0 then Go(TakeShared(sh, i), t.(pc := Mark))
      else Go(sh.(lock := sh.lock + 1, late := sh.late + {i}), t.(pc := LockSpin))
    case LockSpin => if sh.lock >= 0 then Go(sh, t.(seen := sh.lock, pc := LockCas)) else Blocked
    case LockCas =>
      if sh.lock == t.seen then Go(TakeShared(sh, i), t.(pc := Mark)) else Go(sh, t.(pc := LockSpin))
    case Mark =>
      if t.walk == t.head then Go(sh, t.(pc := if t.owner then WaitOwner else AfterSync(t)))
      else
        var n := Chunk(c.k, t.walk, t.head);
        Go(Flip(c, sh, t), t.(walk := IncProd(c.k, t.walk, n), pos := t.pos + n))
    case WaitOwner => if sh.ownerProd == t.prod then Go(sh, t.(pc := Close)) else Blocked
    case Close =>
      Go(sh.(prod := ClearFlag(sh.prod), gather := |sh.log|),
         t.(close := ClearFlag(sh.prod), closeEnd := |sh.log|, walk := t.prod, pos := t.start, pc := Poll))
    case Poll =>
      if t.walk == t.close then Go(sh, t.(pc := Publish))
      else
        var n := Chunk(c.k, t.walk, t.close);
        if ValidFor(sh.valid, Idx(c.k, t.walk), n, Wrp(c.k, t.walk))
        then Go(sh, t.(walk := IncProd(c.k, t.walk, n), pos := t.pos + n)) else Blocked
    case Publish => Go(sh.(hwProd := SetFlag(t.close), published := t.closeEnd), t.(pc := HandOver))
    case HandOver => Go(sh.(ownerProd := t.close, handed := t.closeEnd), t.(pc := AfterSync(t)))
    case SyncLoad =>
      Go(sh, t.(cons := sh.cons, lc := sh.shadow, recent := false, ok := false,
                pc := if c.msi then MsiPoll else SyncCheck))
    case MsiPoll =>
      if Get(sh.buf, Idx(c.k, SyncPtr(c, t))) == Zeroed then
        Go(sh, t.(cons := IncProd(c.k, SyncPtr(c, t), 1), lc := t.start + Total(t),
                  recent := true, ok := true, pc := TryUnlock))
      else if env.timeout && CanRead(c, sh, env.value) then
        Go(sh, t.(cons := env.value, lc := |sh.executed|, recent := true, pc := TryUnlock))
      else Blocked
    case SyncCheck =>
      if Consumed(c.k, t.cons, SyncPtr(c, t)) then Go(sh, t.(ok := true, pc := TryUnlock))
      else Go(sh, t.(pc := SyncRead))
    case SyncRead =>
      if CanRead(c, sh, env.value)
      then Go(sh, t.(cons := env.value, lc := |sh.executed|, recent := true,
                     pc := if env.timeout then TryUnlock else SyncCheck))
      else Blocked
    case TryUnlock =>
      if sh.lock == 1 then Go(sh.(writer := Some(i), wc := t.lc), t.(pc := WriteCons))
      else Go(sh, t.(pc := Unlock))
    case WriteCons => Go(StoreCons(sh, t.cons, t.lc), t.(pc := UnlockWrote))
    case UnlockWrote => Go(DropShared(sh, i), t.(pc := Idle))
    case Unlock => Go(DropShared(sh, i), t.(pc := Idle))
  }

  /** Pointer of the CMD_SYNC, which follows the caller's commands. */
  function SyncPtr(c: Config, t: Thread): nat {
    IncProd(c.k, t.prod, |t.cmds|)
  }

  /** A CPU calls ummu_mcmdq_issue_cmdlist. */
  function Call(t: Thread, cmds: seq<Cmd>, sync: bool): Thread {
    t.(pc := Load, cmds := cmds, sync := sync)
  }

  /** The hardware consumes the next published slot; completing a CMD_SYNC it writes back to it when
      MSI polling is used. */
  function HwStep(c: Config, sh: Shared): Shared {
    var cmd := Get(sh.buf, Idx(c.k, sh.hwCons));
    sh.(executed := sh.executed + [cmd], hwCons := Ptr(c.k, sh.hwCons + 1),
        buf := if c.msi && cmd == Sync then Put(sh.buf, Idx(c.k, sh.hwCons), Zeroed) else sh.buf)
  }

  datatype Action =
    | Enter(i: nat, cmds: seq<Cmd>, sync: bool)
    | Run(i: nat, env: Env)
    | Hardware

  predicate NextBy(c: Config, s: State, s': State, a: Action) {
    match a
    case Enter(i, cmds, sync) =>
      && i < |s.ts| && s.ts[i].pc == Idle
      && (forall x :: 0 <= x < |cmds| ==> cmds[x].Op?)
      && 1 <= |cmds| + (if sync then 1 else 0) <= Size(c)
      && s' == s.(ts := s.ts[i := Call(s.ts[i], cmds, sync)])
    case Run(i, env) =>
      && i < |s.ts|
      && var n := Step(c, s.sh, i, s.ts[i], env);
         n.Go? && s' == State(n.sh, s.ts[i := n.t])
    case Hardware =>
      && !Empty(c.k, s.sh.hwProd, s.sh.hwCons)
      && s' == s.(sh := HwStep(c, s.sh))
  }

  ghost predicate NextState(c: Config, s: State, s': State) {
    exists a :: NextBy(c, s, s', a)
  }

  predicate Init(c: Config, s: State) {
    && |s.ts| == c.cpus
    && (forall i :: 0 <= i < |s.ts| ==> s.ts[i].pc == Idle)
    && s.sh == Shared(0, 0, 0, seq(Size(c), _ => false), s.sh.buf, 0, OVERFLOW_FLAG, 0,
                      [], 0, 0, 0, 0, [], {}, None, {}, None, 0)
    && |s.sh.buf| == Size(c)
  }

  /** A finite run from an initial state. */
  ghost predicate IsRun(c: Config, run: seq<State>) {
    && |run| > 0 && Init(c, run[0])
    && forall m :: 0 <= m < |run| - 1 ==> NextState(c, run[m], run[m + 1])
  }
}
