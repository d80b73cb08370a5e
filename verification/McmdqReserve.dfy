/** Steps that reserve space in the ring and the pointer facts all steps use. */
module McmdqReserve {
  import opened Arith
  import opened Ring
  import opened ValidMap
  import opened Mcmdq
  import opened McmdqInv

  lemma PtrFacts(k: nat, x: nat)
    requires k <= 30
    ensures At(k, Ptr(k, x), x) && At(k, Ptr(k, x) + OVERFLOW_FLAG, x)
    ensures Ptr(k, x) < 2 * Pow2(k) <= OVERFLOW_FLAG
    ensures Ovf(Ptr(k, x)) == 0 && Ovf(Ptr(k, x) + OVERFLOW_FLAG) == OVERFLOW_FLAG
  {
    hide Idx, Wrp, Ovf;
    PosAt(k, x);
    TwoLapsFit(k);
    FlagAt(k, Ptr(k, x));
    OvfOf(Ptr(k, x));
  }

  /** The space test and the full test on the shared words are exact. */
  lemma SpaceWords(c: Config, sh: Shared, n: nat)
    requires Legal(c) && Core(c, sh)
    ensures HasSpace(c.k, sh.prod, sh.cons, n) <==> |sh.log| + n <= sh.shadow + Size(c)
    ensures Full(c.k, sh.prod, sh.cons) <==> |sh.log| == sh.shadow + Size(c)
    ensures |sh.log| <= sh.shadow + Size(c)
  {
    hide MapOk, RingOk, LogOk, LockOk, HasSpace, Full, Idx, Wrp, Ovf, Ptr;
    PtrFacts(c.k, |sh.log|);
    HasSpaceExact(c.k, sh.prod, sh.cons, |sh.log|, sh.shadow, n);
    FullExact(c.k, sh.prod, sh.cons, |sh.log|, sh.shadow);
  }

  lemma FlagFacts(k: nat, x: nat)
    requires k <= 30
    ensures SetFlag(Ptr(k, x)) == Ptr(k, x) + OVERFLOW_FLAG == SetFlag(Ptr(k, x) + OVERFLOW_FLAG)
    ensures ClearFlag(Ptr(k, x)) == Ptr(k, x) == ClearFlag(Ptr(k, x) + OVERFLOW_FLAG)
  {
    hide Idx, Wrp, Ovf, Ptr;
    PtrFacts(k, x);
  }

  /** Pointers without the flag tell counters less than two laps apart from each other. */
  lemma PtrInjective(k: nat, x: nat, y: nat)
    requires k <= 30 && Ptr(k, x) == Ptr(k, y)
    requires x < y + 2 * Pow2(k) && y < x + 2 * Pow2(k)
    ensures x == y
  {
    hide Idx, Wrp, Ovf;
    PosAt(k, x);
    PosAt(k, y);
    AtInjective(k, x, y);
  }

  /** Incrementing a pointer increments its counter, whether or not the flag is set. */
  lemma IncPtr(k: nat, x: nat, n: nat)
    requires k <= 30
    ensures IncProd(k, Ptr(k, x), n) == Ptr(k, x + n)
    ensures IncProd(k, Ptr(k, x) + OVERFLOW_FLAG, n) == Ptr(k, x + n) + OVERFLOW_FLAG
  {
    hide Idx, Wrp, Ovf, IncProd;
    PtrFacts(k, x);
    IncProdAt(k, Ptr(k, x), x, n);
    IncProdAt(k, Ptr(k, x) + OVERFLOW_FLAG, x, n);
  }

  // ---------------------------------------------------------------- the compare-and-exchange

  predicate Reserves(c: Config, sh: Shared, t: Thread) {
    && Legal(c) && t.pc.Cas? && sh.prod == t.prod && sh.cons == t.cons
    && 1 <= Total(t) <= Size(c) && HasSpace(c.k, t.prod, t.cons, Total(t))
  }

  function Reserved(c: Config, sh: Shared, t: Thread): Thread {
    t.(pc := Write, owner := Ovf(t.prod) == 0, prod := ClearFlag(t.prod),
       head := ClearFlag(IncProd(c.k, t.prod, Total(t))), start := |sh.log|, pos := 0)
  }

  /** A compare-and-exchange that succeeds finds the words it tested, even if they changed and came
      back in between, so the space it saw is there. */
  lemma ReserveFits(c: Config, sh: Shared, t: Thread)
    requires Reserves(c, sh, t) && Order(c, sh) && Words(c, sh)
    ensures |sh.log| + Total(t) <= sh.shadow + Size(c)
  {
    hide Idx, Wrp, Ovf, Ptr, HasSpace;
    PtrFacts(c.k, |sh.log|);
    HasSpaceExact(c.k, t.prod, t.cons, |sh.log|, sh.shadow, Total(t));
  }

  lemma ReserveWords(c: Config, sh: Shared, i: nat, t: Thread)
    requires Reserves(c, sh, t) && Order(c, sh) && Words(c, sh)
    ensures var sh' := Reserve(c, sh, i, t); Order(c, sh') && Words(c, sh')
    ensures var t' := Reserved(c, sh, t);
            && t'.prod == Ptr(c.k, |sh.log|) && t'.head == Ptr(c.k, |sh.log| + Total(t))
            && (t'.owner <==> sh.gather == |sh.log|)
  {
    hide Idx, Wrp, Ovf, Ptr, HasSpace, IncProd, SetFlag, ClearFlag;
    ReserveFits(c, sh, t);
    PtrFacts(c.k, |sh.log|);
    IncPtr(c.k, |sh.log|, Total(t));
    FlagFacts(c.k, |sh.log|);
    FlagFacts(c.k, |sh.log| + Total(t));
  }

  /** The slots a reservation reuses were marked, published and consumed a lap ago, so their bits
      read as invalid for the new lap. */
  lemma ReserveMap(c: Config, sh: Shared, i: nat, t: Thread)
    requires Reserves(c, sh, t) && Order(c, sh) && Words(c, sh) && MapOk(c, sh) && LogOk(c, sh)
    ensures MapOk(c, Reserve(c, sh, i, t))
  {
    hide Idx, Wrp, Ovf, Ptr, HasSpace, IncProd, SetFlag, ClearFlag;
    ReserveFits(c, sh, t);
    var sh' := Reserve(c, sh, i, t);
    forall x | 0 <= x < |sh'.log| && |sh'.log| <= x + Size(c)
      ensures sh.valid[Idx(c.k, x)] == (sh'.log[x].done == (Wrp(c.k, x) == 0))
    {
      if x >= |sh.log| {
        ReusedSlot(c, sh, x);
      }
    }
  }

  lemma ReusedSlot(c: Config, sh: Shared, x: nat)
    requires Order(c, sh) && MapOk(c, sh) && LogOk(c, sh)
    requires |sh.log| <= x < sh.shadow + Size(c)
    ensures sh.valid[Idx(c.k, x)] == (Wrp(c.k, x) != 0)
  {
    if x < Size(c) {
      SmallPos(c.k, x);
    } else {
      NextLap(c.k, x - Size(c));
      assert sh.log[x - Size(c)].done;
    }
  }

  lemma ReserveCore(c: Config, sh: Shared, i: nat, t: Thread)
    requires Reserves(c, sh, t) && Core(c, sh) && i < c.cpus
    ensures Core(c, Reserve(c, sh, i, t))
  {
    hide Idx, Wrp, Ovf, Ptr, HasSpace, IncProd, SetFlag, ClearFlag, MapOk;
    ReserveWords(c, sh, i, t);
    ReserveMap(c, sh, i, t);
  }

  lemma ReserveOther(c: Config, sh: Shared, i: nat, t: Thread, j: nat, u: Thread)
    requires Order(c, sh) && ThreadInv(c, sh, j, u) && i != j
    requires 1 <= Total(t)
    ensures ThreadInv(c, Reserve(c, sh, i, t), j, u)
  {
    hide Idx, Wrp, Ovf, Ptr, HasSpace, IncProd, SetFlag, ClearFlag, RolesOk, SyncOk;
    var sh' := Reserve(c, sh, i, t);
    RolesSame(sh, sh', j, u);
    SyncSame(c, sh, sh', j, u);
    assert forall x :: 0 <= x < |sh.log| ==> sh'.log[x] == sh.log[x];
    assert ProgressOk(c, sh', u);
  }

  lemma ReserveSelf(c: Config, sh: Shared, i: nat, t: Thread)
    requires Reserves(c, sh, t) && Core(c, sh) && ThreadInv(c, sh, i, t)
    ensures ThreadInv(c, Reserve(c, sh, i, t), i, Reserved(c, sh, t))
  {
    hide Idx, Wrp, Ovf, Ptr, HasSpace, IncProd, SetFlag, ClearFlag, MapOk, RingOk;
    ReserveWords(c, sh, i, t);
  }
}
