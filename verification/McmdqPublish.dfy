/** Steps that fill, mark and publish slots, and the hardware's consumption of them. */
module McmdqPublish {
  import opened Ring
  import opened ValidMap
  import opened Mcmdq
  import opened McmdqInv
  import opened McmdqReserve

  // ---------------------------------------------------------------- storing a command

  predicate Stores(c: Config, sh: Shared, i: nat, t: Thread) {
    Legal(c) && t.pc.Write? && t.pos < Total(t) && ThreadInv(c, sh, i, t)
  }

  /** A reserved slot that is not marked lies in the window in which slots do not collide, and the
      hardware has not reached it. */
  lemma UnmarkedInWindow(c: Config, sh: Shared, x: nat)
    requires Order(c, sh) && LogOk(c, sh) && x < |sh.log| && !sh.log[x].done
    ensures sh.shadow <= |sh.executed| <= sh.published <= x && |sh.log| <= x + Size(c)
  {}

  lemma StoreIndex(c: Config, sh: Shared, i: nat, t: Thread)
    requires Stores(c, sh, i, t)
    ensures Idx(c.k, IncProd(c.k, t.prod, t.pos)) == Idx(c.k, t.start + t.pos)
  {
    hide Idx, Wrp, Ovf, Ptr, IncProd, HasSpace, ProgressOk, OwnerOk, RolesOk, SyncOk;
    IncPtr(c.k, t.start, t.pos);
    PtrFacts(c.k, t.start + t.pos);
  }

  lemma StoreRing(c: Config, sh: Shared, i: nat, t: Thread)
    requires Stores(c, sh, i, t) && Core(c, sh)
    ensures RingOk(c, StoreEntry(c, sh, t))
  {
    hide Idx, Wrp, Ovf, Ptr, IncProd, HasSpace, OwnerOk, RolesOk, SyncOk, MapOk, LockOk, Words;
    StoreIndex(c, sh, i, t);
    var sh', z := StoreEntry(c, sh, t), t.start + t.pos;
    UnmarkedInWindow(c, sh, z);
    forall x | |sh.executed| <= x < |sh.log| && sh'.log[x].written
      ensures sh'.buf[Idx(c.k, x)] == sh'.log[x].cmd
    {
      if Idx(c.k, x) == Idx(c.k, z) {
        SlotInjective(c.k, x, z);
      }
    }
  }

  lemma StoreCore(c: Config, sh: Shared, i: nat, t: Thread)
    requires Stores(c, sh, i, t) && Core(c, sh)
    ensures Core(c, StoreEntry(c, sh, t))
  {
    hide Idx, Wrp, Ovf, Ptr, IncProd, HasSpace, OwnerOk, RolesOk, SyncOk, RingOk;
    StoreRing(c, sh, i, t);
    StoreIndex(c, sh, i, t);
  }

  /** Storing a command is invisible to every other condition. */
  lemma MoreWritten(c: Config, sh: Shared, sh': Shared, j: nat, u: Thread)
    requires RangeOk(c, sh, j, u) && ProgressOk(c, sh, u) && OwnerOk(c, sh, j, u)
    requires sh'.gather == sh.gather && sh'.handed == sh.handed && sh'.published == sh.published
    requires |sh'.log| == |sh.log|
    requires forall x :: 0 <= x < |sh.log| ==> sh'.log[x] == sh.log[x] || sh'.log[x] == sh.log[x].(written := true)
    ensures RangeOk(c, sh', j, u) && ProgressOk(c, sh', u) && OwnerOk(c, sh', j, u)
  {
    hide Idx, Wrp, Ptr, HasSpace;
  }

  lemma StoreThread(c: Config, sh: Shared, i: nat, t: Thread, j: nat, u: Thread)
    requires Stores(c, sh, i, t) && ThreadInv(c, sh, j, u)
    ensures ThreadInv(c, StoreEntry(c, sh, t), j, u)
  {
    hide Idx, Wrp, Ovf, Ptr, IncProd, HasSpace, RangeOk, ProgressOk, OwnerOk, RolesOk, SyncOk;
    var sh' := StoreEntry(c, sh, t);
    RolesSame(sh, sh', j, u);
    SyncSame(c, sh, sh', j, u);
    MoreWritten(c, sh, sh', j, u);
  }

  lemma StoreSelf(c: Config, sh: Shared, i: nat, t: Thread)
    requires Stores(c, sh, i, t)
    ensures ThreadInv(c, StoreEntry(c, sh, t), i, t.(pos := t.pos + 1))
  {
    hide Idx, Wrp, Ovf, Ptr, IncProd, HasSpace, OwnerOk, RolesOk, SyncOk;
    StoreThread(c, sh, i, t, i, t);
    var sh', t' := StoreEntry(c, sh, t), t.(pos := t.pos + 1);
    assert OwnerOk(c, sh', i, t') && RolesOk(sh', i, t') && SyncOk(c, sh', i, t') by {
      StillWriting(c, sh', i, t, t');
    }
  }

  lemma StillWriting(c: Config, sh: Shared, i: nat, t: Thread, t': Thread)
    requires t.pc.Write? && t' == t.(pos := t'.pos)
    requires OwnerOk(c, sh, i, t) && RolesOk(sh, i, t) && SyncOk(c, sh, i, t)
    ensures OwnerOk(c, sh, i, t') && RolesOk(sh, i, t') && SyncOk(c, sh, i, t')
  {
    hide Idx, Wrp, Ptr;
  }

  // ---------------------------------------------------------------- marking slots valid

  predicate Marks(c: Config, sh: Shared, i: nat, t: Thread) {
    Legal(c) && t.pc.Mark? && t.walk != t.head && ThreadInv(c, sh, i, t)
  }

  /** The walk covers the next slots of the range, in consecutive map positions. */
  lemma MarkChunk(c: Config, sh: Shared, i: nat, t: Thread)
    requires Marks(c, sh, i, t)
    ensures var n := Chunk(c.k, t.walk, t.head);
            && t.pos + n <= End(t) && Idx(c.k, t.pos) + n <= Size(c)
            && Idx(c.k, t.walk) == Idx(c.k, t.pos)
            && IncProd(c.k, t.walk, n) == Ptr(c.k, t.pos + n)
  {
    hide Idx, Wrp, Ovf, Ptr, IncProd, HasSpace, Chunk, OwnerOk, RolesOk, SyncOk;
    PtrFacts(c.k, t.pos);
    PtrFacts(c.k, End(t));
    ChunkBounds(c.k, t.walk, t.head, t.pos, End(t));
    IncPtr(c.k, t.pos, Chunk(c.k, t.walk, t.head));
  }

  lemma MarkMapSlot(c: Config, sh: Shared, i: nat, t: Thread, x: nat)
    requires Marks(c, sh, i, t) && Core(c, sh) && x < |sh.log| && |sh.log| <= x + Size(c)
    ensures var sh' := Flip(c, sh, t);
            |sh'.valid| == Size(c) && sh'.valid[Idx(c.k, x)] == (sh'.log[x].done == (Wrp(c.k, x) == 0))
  {
    hide Idx, Wrp, Ovf, Ptr, IncProd, HasSpace, Chunk, OwnerOk, RolesOk, SyncOk, RingOk, LockOk, Words;
    var n, lo := Chunk(c.k, t.walk, t.head), Idx(c.k, t.pos);
    MarkChunk(c, sh, i, t);
    UnmarkedInWindow(c, sh, t.pos);
    if t.pos <= x < t.pos + n {
      ChunkSlot(c.k, t.pos, n, x);
    } else if lo <= Idx(c.k, x) < lo + n {
      var y := t.pos + (Idx(c.k, x) - lo);
      ChunkSlot(c.k, t.pos, n, y);
      SlotInjective(c.k, x, y);
    }
  }

  lemma MarkMapUnused(c: Config, sh: Shared, i: nat, t: Thread, x: nat)
    requires Marks(c, sh, i, t) && Core(c, sh) && |sh.log| <= x < Size(c)
    ensures var sh' := Flip(c, sh, t); |sh'.valid| == Size(c) && !sh'.valid[x]
  {
    hide Idx, Wrp, Ovf, Ptr, IncProd, HasSpace, Chunk, OwnerOk, RolesOk, SyncOk, RingOk, LockOk, Words;
    var n, lo := Chunk(c.k, t.walk, t.head), Idx(c.k, t.pos);
    MarkChunk(c, sh, i, t);
    UnmarkedInWindow(c, sh, t.pos);
    if lo <= x < lo + n {
      var y := t.pos + (x - lo);
      ChunkSlot(c.k, t.pos, n, y);
      SmallPos(c.k, x);
      SlotInjective(c.k, x, y);
    }
  }

  lemma MarkMap(c: Config, sh: Shared, i: nat, t: Thread)
    requires Marks(c, sh, i, t) && Core(c, sh)
    ensures MapOk(c, Flip(c, sh, t))
  {
    hide Idx, Wrp, Core, Marks, Flip;
    var sh' := Flip(c, sh, t);
    FlipSizes(c, sh, i, t);
    forall x | 0 <= x < |sh'.log| && |sh'.log| <= x + Size(c)
      ensures sh'.valid[Idx(c.k, x)] == (sh'.log[x].done == (Wrp(c.k, x) == 0))
    {
      MarkMapSlot(c, sh, i, t, x);
    }
    forall x | |sh'.log| <= x < Size(c) ensures !sh'.valid[x] {
      MarkMapUnused(c, sh, i, t, x);
    }
  }

  lemma FlipSizes(c: Config, sh: Shared, i: nat, t: Thread)
    requires Marks(c, sh, i, t) && Core(c, sh)
    ensures |Flip(c, sh, t).log| == |sh.log| && |Flip(c, sh, t).valid| == Size(c)
  {
    hide Idx, Wrp, Ovf, Ptr, IncProd, HasSpace, Chunk, OwnerOk, RolesOk, SyncOk, RingOk, LockOk, Words, ThreadInv;
  }

  lemma MarkCore(c: Config, sh: Shared, i: nat, t: Thread)
    requires Marks(c, sh, i, t) && Core(c, sh)
    ensures Core(c, Flip(c, sh, t))
  {
    hide Idx, Wrp, Ovf, Ptr, IncProd, HasSpace, Chunk, OwnerOk, RolesOk, SyncOk, MapOk;
    MarkChunk(c, sh, i, t);
    MarkMap(c, sh, i, t);
  }

  lemma MarkOther(c: Config, sh: Shared, i: nat, t: Thread, j: nat, u: Thread)
    requires Marks(c, sh, i, t) && ThreadInv(c, sh, j, u) && i != j
    ensures ThreadInv(c, Flip(c, sh, t), j, u)
  {
    hide Idx, Wrp, Ovf, Ptr, IncProd, HasSpace, Chunk, RolesOk, SyncOk, Content;
    MarkChunk(c, sh, i, t);
    var sh' := Flip(c, sh, t);
    RolesSame(sh, sh', j, u);
    SyncSame(c, sh, sh', j, u);
    assert ProgressOk(c, sh', u);
    assert OwnerOk(c, sh', j, u);
  }

  lemma MarkSelf(c: Config, sh: Shared, i: nat, t: Thread)
    requires Marks(c, sh, i, t)
    ensures var n := Chunk(c.k, t.walk, t.head);
            ThreadInv(c, Flip(c, sh, t), i, t.(walk := IncProd(c.k, t.walk, n), pos := t.pos + n))
  {
    hide Idx, Wrp, Ovf, Ptr, IncProd, HasSpace, Chunk, RolesOk, SyncOk;
    MarkChunk(c, sh, i, t);
    var sh', n := Flip(c, sh, t), Chunk(c.k, t.walk, t.head);
    var t' := t.(walk := IncProd(c.k, t.walk, n), pos := t.pos + n);
    RolesSame(sh, sh', i, t);
    SyncSame(c, sh, sh', i, t);
    StillMarking(c, sh', i, t, t');
    assert Content(t') == Content(t) && Total(t') == Total(t);
    hide Content, Total;
    assert ProgressOk(c, sh', t');
    assert RangeOk(c, sh', i, t');
  }

  lemma StillMarking(c: Config, sh: Shared, i: nat, t: Thread, t': Thread)
    requires t.pc.Mark? && t' == t.(pos := t'.pos, walk := t'.walk)
    requires RolesOk(sh, i, t) && SyncOk(c, sh, i, t)
    ensures RolesOk(sh, i, t') && SyncOk(c, sh, i, t')
  {
    hide Idx, Wrp;
  }

  // ---------------------------------------------------------------- owner duties

  /** Waiting for owner_prod compares pointers; it is passed exactly when the previous owner has
      handed over. */
  lemma WaitPassed(c: Config, sh: Shared, i: nat, t: Thread)
    requires Legal(c) && Core(c, sh) && t.pc.WaitOwner? && ThreadInv(c, sh, i, t)
    ensures sh.ownerProd == t.prod <==> sh.handed == sh.gather
  {
    hide Idx, Wrp, Ovf, Ptr, IncProd, HasSpace, MapOk, RingOk, LogOk, LockOk, ProgressOk, RolesOk, SyncOk;
    if sh.ownerProd == t.prod {
      PtrInjective(c.k, sh.handed, sh.gather);
    }
  }

  function Closed(sh: Shared): Shared {
    sh.(prod := ClearFlag(sh.prod), gather := |sh.log|)
  }

  function Closer(sh: Shared, t: Thread): Thread {
    t.(close := ClearFlag(sh.prod), closeEnd := |sh.log|, walk := t.prod, pos := t.start, pc := Poll)
  }

  lemma CloseCore(c: Config, sh: Shared, i: nat, t: Thread)
    requires Legal(c) && t.pc.Close? && ThreadInv(c, sh, i, t) && Core(c, sh)
    ensures Core(c, Closed(sh)) && Closed(sh).prod == Ptr(c.k, |sh.log|)
  {
    hide Idx, Wrp, Ovf, Ptr, IncProd, HasSpace, ClearFlag, ProgressOk, RolesOk, SyncOk;
    FlagFacts(c.k, |sh.log|);
  }

  lemma CloseOther(c: Config, sh: Shared, i: nat, t: Thread, j: nat, u: Thread)
    requires Legal(c) && t.pc.Close? && ThreadInv(c, sh, i, t) && Order(c, sh)
    requires ThreadInv(c, sh, j, u) && i != j
    ensures ThreadInv(c, Closed(sh), j, u)
  {
    hide Idx, Wrp, Ovf, Ptr, IncProd, HasSpace, ClearFlag, ProgressOk, RolesOk, SyncOk;
    LogSame(c, sh, Closed(sh), j, u);
    RolesSame(sh, Closed(sh), j, u);
    SyncSame(c, sh, Closed(sh), j, u);
    assert sh.log[sh.gather].who == i;
  }

  lemma CloseSelf(c: Config, sh: Shared, i: nat, t: Thread)
    requires Legal(c) && t.pc.Close? && ThreadInv(c, sh, i, t) && Core(c, sh)
    ensures ThreadInv(c, Closed(sh), i, Closer(sh, t))
  {
    hide Idx, Wrp, Ovf, Ptr, IncProd, HasSpace, ClearFlag, MapOk, RingOk, LockOk;
    CloseCore(c, sh, i, t);
  }

  predicate PollsAt(c: Config, sh: Shared, i: nat, t: Thread) {
    Legal(c) && t.pc.Poll? && t.walk != t.close && ThreadInv(c, sh, i, t)
  }

  predicate Polls(c: Config, sh: Shared, i: nat, t: Thread) {
    PollsAt(c, sh, i, t) && ValidFor(sh.valid, Idx(c.k, t.walk), Chunk(c.k, t.walk, t.close), Wrp(c.k, t.walk))
  }

  lemma PollChunk(c: Config, sh: Shared, i: nat, t: Thread)
    requires PollsAt(c, sh, i, t) && Order(c, sh)
    ensures var n := Chunk(c.k, t.walk, t.close);
            && t.pos + n <= t.closeEnd && Idx(c.k, t.pos) + n <= Size(c)
            && Idx(c.k, t.walk) == Idx(c.k, t.pos) && Wrp(c.k, t.walk) == Wrp(c.k, t.pos)
            && IncProd(c.k, t.walk, n) == Ptr(c.k, t.pos + n)
  {
    hide Idx, Wrp, Ovf, Ptr, IncProd, HasSpace, Chunk, ProgressOk, RolesOk, SyncOk;
    PtrFacts(c.k, t.pos);
    PtrFacts(c.k, t.closeEnd);
    ChunkBounds(c.k, t.walk, t.close, t.pos, t.closeEnd);
    IncPtr(c.k, t.pos, Chunk(c.k, t.walk, t.close));
  }

  /** A bit that reads as valid was marked by the current lap. */
  lemma PollSound(c: Config, sh: Shared, i: nat, t: Thread)
    requires Polls(c, sh, i, t) && Core(c, sh)
    ensures forall x :: t.pos <= x < t.pos + Chunk(c.k, t.walk, t.close) && x < |sh.log| ==> sh.log[x].done
  {
    hide Idx, Wrp, Ovf, Ptr, IncProd, HasSpace, Chunk, ProgressOk, RolesOk, SyncOk, RingOk, LockOk;
    PollChunk(c, sh, i, t);
    var n := Chunk(c.k, t.walk, t.close);
    forall x | t.pos <= x < t.pos + n && x < |sh.log|
      ensures sh.log[x].done
    {
      ChunkSlot(c.k, t.pos, n, x);
    }
  }

  /** A walk that waits, waits for a slot that its lap has not marked yet. */
  lemma PollWaits(c: Config, sh: Shared, i: nat, t: Thread) returns (x: nat)
    requires PollsAt(c, sh, i, t) && !Polls(c, sh, i, t) && Core(c, sh)
    ensures x < |sh.log| && !sh.log[x].done
  {
    hide Idx, Wrp, Ovf, Ptr, IncProd, HasSpace, Chunk, ProgressOk, RolesOk, SyncOk, RingOk, LockOk, Words, LogOk;
    PollChunk(c, sh, i, t);
    var n := Chunk(c.k, t.walk, t.close);
    var j :| Idx(c.k, t.walk) <= j < Idx(c.k, t.walk) + n && j < |sh.valid| && sh.valid[j] != (Wrp(c.k, t.walk) == 0);
    x := t.pos + (j - Idx(c.k, t.pos));
    ChunkSlot(c.k, t.pos, n, x);
  }

  lemma PollSelf(c: Config, sh: Shared, i: nat, t: Thread)
    requires Polls(c, sh, i, t) && Core(c, sh)
    ensures var n := Chunk(c.k, t.walk, t.close);
            ThreadInv(c, sh, i, t.(walk := IncProd(c.k, t.walk, n), pos := t.pos + n))
  {
    hide Idx, Wrp, Ovf, Ptr, IncProd, HasSpace, Chunk, MapOk, RingOk, LockOk;
    PollChunk(c, sh, i, t);
    PollSound(c, sh, i, t);
  }

  lemma PollDone(c: Config, sh: Shared, i: nat, t: Thread)
    requires Legal(c) && t.pc.Poll? && t.walk == t.close && ThreadInv(c, sh, i, t) && Core(c, sh)
    ensures ThreadInv(c, sh, i, t.(pc := Publish))
  {
    hide Idx, Wrp, Ovf, Ptr, IncProd, HasSpace, Chunk, MapOk, RingOk, LockOk;
    PtrInjective(c.k, t.pos, t.closeEnd);
  }

  function Published(sh: Shared, t: Thread): Shared {
    sh.(hwProd := SetFlag(t.close), published := t.closeEnd)
  }

  lemma PublishCore(c: Config, sh: Shared, i: nat, t: Thread)
    requires Legal(c) && t.pc.Publish? && ThreadInv(c, sh, i, t) && Core(c, sh)
    ensures Core(c, Published(sh, t))
  {
    hide Idx, Wrp, Ovf, Ptr, IncProd, HasSpace, SetFlag, ProgressOk, RolesOk, SyncOk;
    FlagFacts(c.k, sh.gather);
  }

  lemma PublishOther(c: Config, sh: Shared, i: nat, t: Thread, j: nat, u: Thread)
    requires Legal(c) && t.pc.Publish? && ThreadInv(c, sh, i, t) && Order(c, sh)
    requires ThreadInv(c, sh, j, u) && i != j
    ensures ThreadInv(c, Published(sh, t), j, u)
  {
    hide Idx, Wrp, Ovf, Ptr, IncProd, HasSpace, SetFlag, ProgressOk, RolesOk, SyncOk;
    LogSame(c, sh, Published(sh, t), j, u);
    RolesSame(sh, Published(sh, t), j, u);
    SyncSame(c, sh, Published(sh, t), j, u);
    assert sh.log[sh.handed].who == i;
  }

  lemma PublishSelf(c: Config, sh: Shared, i: nat, t: Thread)
    requires Legal(c) && t.pc.Publish? && ThreadInv(c, sh, i, t) && Order(c, sh)
    ensures ThreadInv(c, Published(sh, t), i, t.(pc := HandOver))
  {
    hide Idx, Wrp, Ovf, Ptr, IncProd, HasSpace, SetFlag;
  }

  function HandedOver(sh: Shared, t: Thread): Shared {
    sh.(ownerProd := t.close, handed := t.closeEnd)
  }

  lemma HandOverCore(c: Config, sh: Shared, i: nat, t: Thread)
    requires Legal(c) && t.pc.HandOver? && ThreadInv(c, sh, i, t) && Core(c, sh)
    ensures Core(c, HandedOver(sh, t))
  {
    hide Idx, Wrp, Ovf, Ptr, IncProd, HasSpace, ProgressOk, RolesOk, SyncOk;
  }

  lemma HandOverOther(c: Config, sh: Shared, i: nat, t: Thread, j: nat, u: Thread)
    requires Legal(c) && t.pc.HandOver? && ThreadInv(c, sh, i, t) && Order(c, sh)
    requires ThreadInv(c, sh, j, u) && i != j
    ensures ThreadInv(c, HandedOver(sh, t), j, u)
  {
    hide Idx, Wrp, Ovf, Ptr, IncProd, HasSpace, ProgressOk, RolesOk, SyncOk;
    LogSame(c, sh, HandedOver(sh, t), j, u);
    RolesSame(sh, HandedOver(sh, t), j, u);
    SyncSame(c, sh, HandedOver(sh, t), j, u);
    assert sh.log[sh.handed].who == i;
  }

  lemma HandOverSelf(c: Config, sh: Shared, i: nat, t: Thread)
    requires Legal(c) && t.pc.HandOver? && ThreadInv(c, sh, i, t) && Order(c, sh)
    ensures ThreadInv(c, HandedOver(sh, t), i, t.(pc := AfterSync(t)))
  {
    hide Idx, Wrp, Ovf, Ptr, IncProd, HasSpace;
  }

  // ---------------------------------------------------------------- the hardware

  /** The hardware sees a non-empty queue exactly when something published is not consumed. */
  lemma HwSees(c: Config, sh: Shared)
    requires Legal(c) && Core(c, sh)
    ensures Empty(c.k, sh.hwProd, sh.hwCons) <==> |sh.executed| == sh.published
  {
    hide Idx, Wrp, Ovf, Ptr, Empty, MapOk, RingOk, LogOk, LockOk;
    PtrFacts(c.k, sh.published);
    PtrFacts(c.k, |sh.executed|);
    FullExact(c.k, sh.hwProd, sh.hwCons, sh.published, |sh.executed|);
  }

  lemma ConsumeWords(c: Config, sh: Shared)
    requires Legal(c) && Core(c, sh) && |sh.executed| < sh.published
    ensures Get(sh.buf, Idx(c.k, sh.hwCons)) == sh.log[|sh.executed|].cmd
    ensures Idx(c.k, sh.hwCons) == Idx(c.k, |sh.executed|)
    ensures Ptr(c.k, sh.hwCons + 1) == Ptr(c.k, |sh.executed| + 1)
  {
    hide Idx, Wrp, Ovf, LockOk, MapOk;
    var x := |sh.executed|;
    PtrFacts(c.k, x);
    AtAdd(c.k, sh.hwCons, x, 1);
    assert sh.log[x].done && sh.log[x].written;
  }

  lemma ConsumeCore(c: Config, sh: Shared)
    requires Legal(c) && Core(c, sh) && |sh.executed| < sh.published
    ensures Core(c, HwStep(c, sh))
    ensures HwStep(c, sh).executed == sh.executed + [sh.log[|sh.executed|].cmd]
  {
    hide Idx, Wrp, Ovf, Ptr;
    var x := |sh.executed|;
    ConsumeWords(c, sh);
    var sh' := HwStep(c, sh);
    forall y | x + 1 <= y < |sh.log| && sh.log[y].written
      ensures sh'.buf[Idx(c.k, y)] == sh.log[y].cmd
    {
      if Idx(c.k, y) == Idx(c.k, x) {
        SlotInjective(c.k, x, y);
      }
    }
  }

  lemma ConsumeThread(c: Config, sh: Shared, j: nat, u: Thread)
    requires ThreadInv(c, sh, j, u)
    ensures ThreadInv(c, HwStep(c, sh), j, u)
  {
    hide Idx, Wrp, Ovf, Ptr, IncProd, HasSpace, RangeOk, ProgressOk, OwnerOk, RolesOk, SyncOk;
    var sh' := HwStep(c, sh);
    LogSame(c, sh, sh', j, u);
    OwnerSame(c, sh, sh', j, u);
    RolesSame(sh, sh', j, u);
    SyncSame(c, sh, sh', j, u);
  }
}
