/** Ring arithmetic of the UMMU command and event queues.

    A queue pointer is a 32-bit register: the low `k` bits are a slot index, bit `k` is the wrap
    bit that changes on every lap, and bit 31 is the overflow flag (reused by the command queue as
    the "owned" flag). `Idx`, `Wrp` and `Ovf` are the masks of queue.h; bits are added where the
    source ORs disjoint fields.

    A pointer stands for an unbounded slot counter: `At(k, p, x)` says that register value `p`
    shows counter `x`. The lemmas say when a test on pointers decides a fact about counters. */
module Ring {
  import opened Arith
  import opened Basics

  const OVERFLOW_FLAG: nat := 0x8000_0000

  function Idx(k: nat, p: nat): (r: nat)
    ensures r < Pow2(k)
  {
    p % Pow2(k)
  }

  function Wrp(k: nat, p: nat): (r: nat)
    ensures r == 0 || r == Pow2(k)
  {
    if (p / Pow2(k)) % 2 == 1 then Pow2(k) else 0
  }

  function Ovf(p: nat): (r: nat)
    ensures r == 0 || r == OVERFLOW_FLAG
  {
    if (p / OVERFLOW_FLAG) % 2 == 1 then OVERFLOW_FLAG else 0
  }

  /** ummu_queue_has_space: the subtractions are those of 32-bit unsigned numbers. */
  predicate HasSpace(k: nat, prod: nat, cons: nat, n: nat) {
    var p, c := Idx(k, prod), Idx(k, cons);
    var space := if Wrp(k, prod) == Wrp(k, cons)
                 then (Pow2(k) + c - p) % U32
                 else (c - p) % U32;
    space >= n
  }

  predicate Full(k: nat, prod: nat, cons: nat) {
    Idx(k, prod) == Idx(k, cons) && Wrp(k, prod) != Wrp(k, cons)
  }

  predicate Empty(k: nat, prod: nat, cons: nat) {
    Idx(k, prod) == Idx(k, cons) && Wrp(k, prod) == Wrp(k, cons)
  }

  predicate Consumed(k: nat, cons: nat, prod: nat) {
    || (Wrp(k, cons) == Wrp(k, prod) && Idx(k, cons) > Idx(k, prod))
    || (Wrp(k, cons) != Wrp(k, prod) && Idx(k, cons) <= Idx(k, prod))
  }

  function IncProd(k: nat, prod: nat, n: nat): nat {
    var p := Wrp(k, prod) + Idx(k, prod) + n;
    Ovf(prod) + Wrp(k, p) + Idx(k, p)
  }

  function IncCons(k: nat, cons: nat): nat {
    IncProd(k, cons, 1)
  }

  /** Register value `p` shows the slot counter `x`: same index, same wrap bit. */
  predicate At(k: nat, p: nat, x: nat) {
    Idx(k, p) == Idx(k, x) && Wrp(k, p) == Wrp(k, x)
  }

  lemma AddLaps(k: nat, x: nat, j: nat)
    ensures Idx(k, x + Pow2(k) * j) == Idx(k, x)
    ensures (x + Pow2(k) * j) / Pow2(k) == x / Pow2(k) + j
  {
    AddMultiple(x, Pow2(k), j);
  }

  /** One lap later: the same index, the opposite wrap bit. */
  lemma NextLap(k: nat, x: nat)
    ensures Idx(k, x + Pow2(k)) == Idx(k, x)
    ensures Wrp(k, x + Pow2(k)) != Wrp(k, x)
  {
    AddLaps(k, x, 1);
  }

  /** An even number of laps later a pointer shows the same. */
  lemma EvenLaps(k: nat, x: nat, j: nat)
    ensures At(k, x + Pow2(k) * (2 * j), x)
  {
    hide Pow2;
    AddMultiple(x, Pow2(k), 2 * j);
    Parity(x / Pow2(k), j);
    SameShown(k, x + Pow2(k) * (2 * j), x);
  }

  lemma SameShown(k: nat, p: nat, x: nat)
    requires p % Pow2(k) == x % Pow2(k) && (p / Pow2(k)) % 2 == (x / Pow2(k)) % 2
    ensures At(k, p, x)
  {
    hide Pow2;
  }

  /** Below two laps the wrap bit and the index are the number itself. */
  lemma SmallPos(k: nat, p: nat)
    requires p < 2 * Pow2(k)
    ensures Wrp(k, p) + Idx(k, p) == p
  {
    if p < Pow2(k) {
      DivModUnique(p, Pow2(k), 0, p);
    } else {
      DivModUnique(p, Pow2(k), 1, p - Pow2(k));
    }
  }

  /** Masking a counter down to wrap bit and index keeps what it shows. */
  lemma PosAt(k: nat, x: nat)
    ensures At(k, Wrp(k, x) + Idx(k, x), x)
  {
    var n := Pow2(k);
    if Wrp(k, x) == 0 {
      DivModUnique(Idx(k, x), n, 0, Idx(k, x));
    } else {
      DivModUnique(n + Idx(k, x), n, 1, Idx(k, x));
    }
  }

  /** Distinct counters less than `2^k` apart use distinct slots. */
  lemma SlotInjective(k: nat, x: nat, y: nat)
    requires Idx(k, x) == Idx(k, y)
    requires x < y + Pow2(k) && y < x + Pow2(k)
    ensures x == y
  {
    var n := Pow2(k);
    DivMod(x, n);
    DivMod(y, n);
    if x / n > y / n {
      MulLt(n, y / n, x / n);
    } else if x / n < y / n {
      MulLt(n, x / n, y / n);
    }
  }

  /** Within two laps only the slot one lap on has the same index. */
  lemma LapOf(k: nat, x: nat, z: nat)
    requires x < z < x + 2 * Pow2(k) && z != x + Pow2(k)
    ensures Idx(k, z) != Idx(k, x)
  {
    hide Idx, Wrp;
    NextLap(k, x);
    if Idx(k, z) == Idx(k, x) {
      SlotInjective(k, z, if z < x + Pow2(k) then x else x + Pow2(k));
    }
  }

  /** Counters less than two laps apart are shown by distinct register values. */
  lemma AtInjective(k: nat, x: nat, y: nat)
    requires At(k, x, y)
    requires x < y + 2 * Pow2(k) && y < x + 2 * Pow2(k)
    ensures x == y
  {
    var n := Pow2(k);
    DivMod(x, n);
    DivMod(y, n);
    if x / n > y / n {
      MulLt(n, y / n, x / n - 1);
      MulLt(n, x / n - 1, x / n);
    } else if x / n < y / n {
      MulLt(n, x / n, y / n - 1);
      MulLt(n, y / n - 1, y / n);
    }
  }

  lemma SumParity(a: nat, b: nat, c: nat)
    requires b % 2 == 1 <==> c % 2 == 1
    ensures (a + b) % 2 == 1 <==> (a + c) % 2 == 1
  {}

  lemma AtAdd(k: nat, p: nat, x: nat, n: nat)
    requires At(k, p, x)
    ensures At(k, p + n, x + n)
  {
    var m, r := Pow2(k), Idx(k, p) + n;
    DivMod(p, m);
    DivMod(x, m);
    AddMultiple(r, m, p / m);
    AddMultiple(r, m, x / m);
    SumParity(r / m, p / m, x / m);
    assert p + n == r + m * (p / m) && x + n == r + m * (x / m);
  }

  lemma FlagIsLaps(k: nat)
    requires k <= 30
    ensures OVERFLOW_FLAG == Pow2(k) * (2 * Pow2(30 - k))
  {
    Pow2Add(k, 31 - k);
    Pow2Literal();
  }

  lemma TwoLapsFit(k: nat)
    requires k <= 30
    ensures 2 * Pow2(k) <= OVERFLOW_FLAG
  {
    Pow2Monotone(k + 1, 31);
    Pow2Literal();
  }

  /** Setting or clearing bit 31 does not change what a pointer shows. */
  lemma FlagAt(k: nat, p: nat)
    requires k <= 30
    ensures At(k, p + OVERFLOW_FLAG, p)
  {
    hide At;
    FlagIsLaps(k);
    EvenLaps(k, p, Pow2(30 - k));
  }

  lemma OvfOf(p: nat)
    requires p < OVERFLOW_FLAG
    ensures Ovf(p) == 0 && Ovf(p + OVERFLOW_FLAG) == OVERFLOW_FLAG
  {}

  /** ummu_queue_inc_prod_n moves the counter by `n` and keeps bit 31. */
  lemma IncProdAt(k: nat, p: nat, x: nat, n: nat)
    requires k <= 30 && At(k, p, x)
    ensures At(k, IncProd(k, p, n), x + n)
    ensures Ovf(IncProd(k, p, n)) == Ovf(p)
    ensures IncProd(k, p, n) - Ovf(p) == Wrp(k, x + n) + Idx(k, x + n)
    ensures IncProd(k, p, n) < U32
  {
    hide Idx, Wrp, Pow2, Ovf;
    PosAt(k, p);
    var q := Wrp(k, p) + Idx(k, p);
    AtAdd(k, q, x, n);
    PosAt(k, q + n);
    TwoLapsFit(k);
    FlagAt(k, Wrp(k, q + n) + Idx(k, q + n));
    OvfOf(Wrp(k, q + n) + Idx(k, q + n));
  }

  /** The position of a counter relative to another one at most a lap behind it. */
  lemma Gap(k: nat, a: nat, s: nat)
    requires s <= a <= s + Pow2(k)
    ensures Wrp(k, a) == Wrp(k, s) ==> Idx(k, a) - Idx(k, s) == a - s
    ensures Wrp(k, a) != Wrp(k, s) ==> Pow2(k) + Idx(k, a) - Idx(k, s) == a - s
  {
    CloseQuotients(s, a, Pow2(k));
    hide Pow2;
  }

  /** has_space answers yes exactly when `n` more entries fit behind the consumer. */
  lemma HasSpaceExact(k: nat, prod: nat, cons: nat, a: nat, s: nat, n: nat)
    requires k <= 30 && At(k, prod, a) && At(k, cons, s)
    requires s <= a <= s + Pow2(k)
    ensures HasSpace(k, prod, cons, n) <==> a + n <= s + Pow2(k)
  {
    hide Idx, Wrp;
    Gap(k, a, s);
    TwoLapsFit(k);
  }

  lemma FullExact(k: nat, prod: nat, cons: nat, a: nat, s: nat)
    requires At(k, prod, a) && At(k, cons, s)
    requires s <= a <= s + Pow2(k)
    ensures Full(k, prod, cons) <==> a == s + Pow2(k)
    ensures Empty(k, prod, cons) <==> a == s
  {
    Gap(k, a, s);
  }

  /** The consumed test is exact for a slot less than a lap ahead of, or up to a lap behind, the
      consumer. */
  lemma ConsumedExact(k: nat, cons: nat, prod: nat, c: nat, x: nat)
    requires At(k, cons, c) && At(k, prod, x)
    requires c <= x + Pow2(k) && x < c + Pow2(k)
    ensures Consumed(k, cons, prod) <==> c > x
  {
    if c > x {
      Gap(k, c, x);
    } else {
      Gap(k, x, c);
    }
  }

  /** For counters any distance apart, the answer is yes exactly if the consumer is between one slot and one
      lap ahead, counted modulo two laps. */
  lemma ConsumedPeriodic(k: nat, c: nat, x: nat)
    ensures Consumed(k, c, x) <==> 1 <= (c - x) % (2 * Pow2(k)) <= Pow2(k)
  {
    var n := Pow2(k);
    var d, q := (c - x) % (2 * n), (c - x) / (2 * n);
    LapsApart(c - x, n);
    assert c == x + d + n * (2 * q);
    if d <= n {
      EvenApart(k, c, x + d, q);
      ConsumedExact(k, c, x, x + d, x);
    } else {
      BackLap(n, q);
      EvenApart(k, x, c + (2 * n - d), -q - 1);
      ConsumedExact(k, c, x, c, c + (2 * n - d));
    }
  }

  lemma BackLap(n: nat, q: int)
    ensures n * (2 * (-q - 1)) == -(n * (2 * q)) - 2 * n
  {}

  lemma LapsApart(e: int, n: nat)
    requires n > 0
    ensures e == n * (2 * (e / (2 * n))) + e % (2 * n) && 0 <= e % (2 * n) < 2 * n
  {
    assert 2 * n * (e / (2 * n)) == n * (2 * (e / (2 * n)));
  }

  /** Counters an even number of laps apart, in either direction, show the same. */
  lemma EvenApart(k: nat, a: nat, b: nat, j: int)
    requires a == b + Pow2(k) * (2 * j)
    ensures At(k, a, b)
  {
    if j >= 0 {
      EvenLaps(k, b, j);
    } else {
      assert Pow2(k) * (2 * -j) == -(Pow2(k) * (2 * j));
      EvenLaps(k, a, -j);
    }
  }

  /** At the first counter beyond either end of the window of `ConsumedExact` the answer is wrong. */
  lemma ConsumedMisreads(k: nat, x: nat)
    ensures Consumed(k, x, x + Pow2(k))
    ensures !Consumed(k, x + Pow2(k) + 1, x)
  {
    NextLap(k, x);
    ConsumedExact(k, x + 1, x, x + 1, x);
    NextLap(k, x + 1);
  }

  /** Popping one entry: the new cons shows the next counter, with bit 31 kept. */
  lemma IncConsAt(k: nat, cons: nat, c: nat)
    requires k <= 30 && At(k, cons, c)
    ensures At(k, IncCons(k, cons), c + 1) && Ovf(IncCons(k, cons)) == Ovf(cons)
  {
    IncProdAt(k, cons, c, 1);
  }
}
