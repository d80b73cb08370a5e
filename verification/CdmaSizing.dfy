/** Sizes of work requests and of the send ring. */
module CdmaSizing {
  import opened Arith
  import opened Basics

  const NORMAL_CTL: nat := 48
  const NOTIFY_CTL: nat := 80
  const SGE_SIZE: nat := 16
  const WQEBB: nat := 64
  const MAX_WQEBB: nat := 4
  const MAX_SGE_NOTIFY: nat := 11
  const ATOMIC_SGES: nat := 2
  const HW_PAGE: nat := 0x1000

  /** cdma_sq_cal_wqebb_num, in 32-bit arithmetic: with no SGE the difference wraps, and wraps back. */
  function WqebbNum(ctl: nat, sges: nat): nat {
    (ctl + (sges + U32 - 1) % U32 * SGE_SIZE % U32) % U32 / WQEBB + 1
  }

  function CeilDiv(a: nat, n: nat): nat
    requires n > 0
  {
    (a + n - 1) / n
  }

  /** The block count is the request length in blocks, rounded up. */
  lemma WqebbExact(ctl: nat, sges: nat)
    requires (ctl == NORMAL_CTL || ctl == NOTIFY_CTL) && sges < 0x100_0000
    ensures WqebbNum(ctl, sges) == CeilDiv(ctl + SGE_SIZE * sges, WQEBB)
  {
    WrapBack(sges);
    var length := ctl + SGE_SIZE * sges;
    assert (ctl + (sges + U32 - 1) % U32 * SGE_SIZE % U32) % U32 == length - SGE_SIZE;
    BlocksUp(length);
  }

  /** The wrapped difference, in bytes: 16 less than the length of the SGEs, modulo 2^32. */
  lemma WrapBack(sges: nat)
    requires sges < 0x100_0000
    ensures (sges + U32 - 1) % U32 * SGE_SIZE % U32 == if sges == 0 then U32 - SGE_SIZE else (sges - 1) * SGE_SIZE
  {
    if sges > 0 {
      assert (sges + U32 - 1) % U32 == sges - 1;
    }
  }

  lemma BlocksUp(length: nat)
    requires length % SGE_SIZE == 0 && length >= SGE_SIZE
    ensures (length - SGE_SIZE) / WQEBB + 1 == CeilDiv(length, WQEBB)
  {
    var m := length / SGE_SIZE;
    DivDiv(length - SGE_SIZE, SGE_SIZE, 4);
    DivDiv(length + WQEBB - 1, SGE_SIZE, 4);
    DivModUnique(length - SGE_SIZE, SGE_SIZE, m - 1, 0);
    DivModUnique(length + WQEBB - 1, SGE_SIZE, m + 3, SGE_SIZE - 1);
  }

  /** It fits the four blocks set aside for building a request exactly up to 13 SGEs, with a notification
      up to 11. */
  lemma WqebbFits(sges: nat)
    requires sges < 0x100_0000
    ensures WqebbNum(NORMAL_CTL, sges) <= MAX_WQEBB <==> sges <= 13
    ensures WqebbNum(NOTIFY_CTL, sges) <= MAX_WQEBB <==> sges <= MAX_SGE_NOTIFY
  {
    WqebbExact(NORMAL_CTL, sges);
    WqebbExact(NOTIFY_CTL, sges);
  }

  lemma WqebbGrows(ctl: nat, ctl': nat, a: nat, b: nat)
    requires (ctl == NORMAL_CTL || ctl == NOTIFY_CTL) && (ctl' == NORMAL_CTL || ctl' == NOTIFY_CTL) && ctl <= ctl'
    requires a <= b < 0x100_0000
    ensures 1 <= WqebbNum(ctl, a) <= WqebbNum(ctl', b)
  {
    WqebbExact(ctl, a);
    WqebbExact(ctl', b);
  }

  /** roundup_pow_of_two: the smallest power of two that is not below `n`. */
  method RoundupPow2(n: nat) returns (r: nat, k: nat)
    requires n > 0
    ensures r == Pow2(k) && r >= n && (k > 0 ==> Pow2(k - 1) < n)
  {
    r, k := 1, 0;
    while r < n
      invariant r == Pow2(k) && (k > 0 ==> Pow2(k - 1) < n)
      decreases n - r
    {
      r, k := 2 * r, k + 1;
    }
  }

  /** Blocks set aside for each request. */
  function BlocksPer(maxSge: nat): (r: nat)
    ensures 1 <= r <= MAX_WQEBB
    ensures maxSge < 0x100 ==> r == Min(4, (80 + 16 * maxSge + 63) / 64)
  {
    assert maxSge < 0x100 ==> WqebbNum(NOTIFY_CTL, maxSge) == (80 + 16 * maxSge + 63) / 64 by {
      if maxSge < 0x100 {
        WqebbExact(NOTIFY_CTL, maxSge);
      }
    }
    var n := WqebbNum(NOTIFY_CTL, maxSge); if n > MAX_WQEBB then MAX_WQEBB else n
  }

  /** cdma_verify_jfs_cfg: the limit is a quarter of what the device reports in 32 bits. */
  predicate DepthOk(depth: nat, reported: nat) {
    reported < U32 && 0 < depth <= reported / MAX_WQEBB
  }

  /** Blocks of a ring whose size was rounded up to `r` blocks: the power of two is cut to 32 bits, and so
      are its bytes and the bytes rounded up to the hardware page. */
  function RingBlocks(r: nat): nat {
    (r % U32 * WQEBB % U32 + HW_PAGE - 1) % U32 / HW_PAGE * HW_PAGE / WQEBB
  }

  const MOST_BLOCKS: nat := 0x200_0000

  /** The kernel part of cdma_get_sq_buf: the number of blocks of the ring. It is the smallest power of two,
      from 64 on, with room for the depth, exactly if 2^25 blocks are enough. Otherwise the number of bytes
      is 0 modulo 2^32, and the ring has no block at all. */
  method RingSize(maxSge: nat, depth: nat, reported: nat) returns (entryCnt: nat, k: nat)
    requires DepthOk(depth, reported)
    ensures entryCnt >= BlocksPer(maxSge) * depth <==> BlocksPer(maxSge) * depth <= MOST_BLOCKS
    ensures BlocksPer(maxSge) * depth <= MOST_BLOCKS ==>
              entryCnt == Pow2(k) && 6 <= k <= 25 && (k > 6 ==> Pow2(k - 1) < BlocksPer(maxSge) * depth)
    ensures BlocksPer(maxSge) * depth > MOST_BLOCKS ==> entryCnt == 0
  {
    var bb := BlocksPer(maxSge);
    hide BlocksPer;
    DepthFits(bb, depth, reported);
    var r, j := RoundupPow2(bb * depth % U32);
    RoundedTo(bb * depth, j);
    if j <= 25 {
      RingExact(j);
    } else {
      RingVanishes(j);
    }
    entryCnt := RingBlocks(r);
    k := if j < 6 then 6 else j;
  }

  /** The product of blocks and depth is not cut. */
  lemma DepthFits(bb: nat, depth: nat, reported: nat)
    requires DepthOk(depth, reported) && 1 <= bb <= MAX_WQEBB
    ensures 0 < bb * depth < U32 && bb * depth % U32 == bb * depth
  {
    MulLe(depth, 1, bb);
    MulLe(depth, bb, 4);
  }

  lemma MostIsPow2()
    ensures Pow2(25) == MOST_BLOCKS
  {
    assert Pow2(8) == 0x100 && Pow2(16) == 0x1_0000;
  }

  /** Up to 2^25 blocks round up to at most 2^25, more to at least 2^26. */
  lemma RoundedTo(n: nat, j: nat)
    requires 0 < n && Pow2(j) >= n && (j > 0 ==> Pow2(j - 1) < n)
    ensures n <= MOST_BLOCKS <==> j <= 25
  {
    MostIsPow2();
    if j > 25 {
      Pow2Monotone(25, j - 1);
    } else {
      Pow2Monotone(j, 25);
    }
  }

  /** Rounding up to the hardware page keeps a power of two: 64 blocks fill a page. */
  lemma RingExact(j: nat)
    requires j <= 25
    ensures RingBlocks(Pow2(j)) == Pow2(if j < 6 then 6 else j)
  {
    var r := Pow2(j);
    MostIsPow2();
    Pow2Monotone(j, 25);
    hide Pow2, RingBlocks;
    NotCut(r);
    AlignPow2(r, j);
  }

  /** Up to 2^25 blocks nothing is cut. */
  lemma NotCut(r: nat)
    requires r <= MOST_BLOCKS
    ensures RingBlocks(r) == (r * WQEBB + HW_PAGE - 1) / HW_PAGE * HW_PAGE / WQEBB
  {
    assert r % U32 == r && r * WQEBB % U32 == r * WQEBB && (r * WQEBB + HW_PAGE - 1) % U32 == r * WQEBB + HW_PAGE - 1;
  }

  /** From 2^26 blocks on the bytes are a multiple of 2^32. */
  lemma RingVanishes(j: nat)
    requires j > 25
    ensures RingBlocks(Pow2(j)) == 0
  {
    hide RingBlocks;
    BytesVanish(j);
    NoBytes(Pow2(j));
  }

  lemma BytesVanish(j: nat)
    requires j > 25
    ensures Pow2(j) % U32 * WQEBB % U32 == 0
  {
    Pow2Literal();
    if j < 32 {
      Pow2Add(26, j - 26);
      Pow2Add(26, 6);
      Pow2Monotone(j, 31);
      hide Pow2;
      DivModUnique(Pow2(j), U32, 0, Pow2(j));
      Regroup(Pow2(26), Pow2(j - 26), WQEBB);
      DivModUnique(Pow2(j) * WQEBB, U32, Pow2(j - 26), 0);
    } else {
      Pow2Add(32, j - 32);
      hide Pow2;
      DivModUnique(Pow2(j), U32, Pow2(j - 32), 0);
    }
  }

  lemma Regroup(a: nat, m: nat, w: nat)
    ensures a * m * w == a * w * m
  {}

  lemma NoBytes(r: nat)
    requires r % U32 * WQEBB % U32 == 0
    ensures RingBlocks(r) == 0
  {}

  lemma AlignPow2(r: nat, j: nat)
    requires r == Pow2(j)
    ensures (r * WQEBB + HW_PAGE - 1) / HW_PAGE * HW_PAGE / WQEBB == Pow2(if j < 6 then 6 else j)
  {
    assert Pow2(6) == 64;
    if j < 6 {
      Pow2Monotone(j, 5);
      assert Pow2(5) == 32;
    } else {
      Pow2Add(6, j - 6);
      var m := Pow2(j - 6);
      assert r * WQEBB == HW_PAGE * m;
      hide Pow2;
      DivModUnique(HW_PAGE * m + HW_PAGE - 1, HW_PAGE, m, HW_PAGE - 1);
      DivModUnique(m * HW_PAGE, WQEBB, 64 * m, 0);
    }
  }

  // ---------------------------------------------------------------- requests

  datatype Op = Write | WriteNotify | Read | Cas | Faa | Invalid

  /** A work request: its operation and the lengths of its SGEs. */
  datatype Request = Request(op: Op, lens: seq<nat>, data: nat)

  function NonZero(lens: seq<nat>): (r: nat)
    ensures r <= |lens|
  {
    if lens == [] then 0 else NonZero(lens[..|lens| - 1]) + (if lens[|lens| - 1] != 0 then 1 else 0)
  }

  function CtlLen(op: Op): nat { if op == WriteNotify then NOTIFY_CTL else NORMAL_CTL }

  /** The SGEs of a request after those of length 0 are left out; atomics count for two. */
  function Sges(q: Request): nat { if q.op == Cas || q.op == Faa then ATOMIC_SGES else NonZero(q.lens) }

  function AtomicLenOk(q: Request): bool {
    |q.lens| > 0 && (q.lens[0] == 4 || q.lens[0] == 8 || (q.lens[0] == 16 && q.op == Cas))
  }

  /** The tests that come before the overflow test: the operation, the number of SGEs, atomic lengths. */
  predicate Acceptable(q: Request, maxSge: nat) {
    match q.op
    case Invalid => false
    case Cas => maxSge != 0 && AtomicLenOk(q)
    case Faa => maxSge != 0 && AtomicLenOk(q)
    case WriteNotify => |q.lens| <= MAX_SGE_NOTIFY && |q.lens| <= maxSge
    case Write => |q.lens| <= maxSge
    case Read => |q.lens| <= maxSge
  }

  function Blocks(q: Request): nat { WqebbNum(CtlLen(q.op), Sges(q)) }

  /** Length of a request: 48 bytes of control, 80 with a notification, and 16 for every SGE that is not empty;
      atomics have two. */
  function RequestBytes(q: Request): nat {
    (if q.op == WriteNotify then 80 else 48)
    + 16 * (if q.op == Cas || q.op == Faa then 2 else |set j | 0 <= j < |q.lens| && q.lens[j] != 0|)
  }

  /** What the driver takes: a known operation; for atomics some SGE allowed and a first one of 4 or 8 bytes, or 16
      for a compare-and-swap; for the others no more SGEs than the limit, with a notification no more than 11. */
  predicate Passes(q: Request, maxSge: nat) {
    && q.op != Invalid
    && if q.op == Cas || q.op == Faa
       then maxSge > 0 && |q.lens| > 0 && q.lens[0] in (if q.op == Cas then {4, 8, 16} else {4, 8})
       else |q.lens| <= maxSge && (q.op == WriteNotify ==> |q.lens| <= 11)
  }

  lemma {:induction false} NonZeroSet(lens: seq<nat>)
    ensures NonZero(lens) == |set j | 0 <= j < |lens| && lens[j] != 0|
  {
    if lens != [] {
      var n := |lens| - 1;
      NonZeroSet(lens[..n]);
      var all, rest := set j | 0 <= j < |lens| && lens[j] != 0, set j | 0 <= j < n && lens[..n][j] != 0;
      assert all == rest + (if lens[n] != 0 then {n} else {});
    }
  }

  /** The tests of the driver are those, and the block count is the length in blocks of 64 bytes, rounded up. */
  lemma RequestExact(q: Request, maxSge: nat)
    requires maxSge < 0x100
    ensures Acceptable(q, maxSge) <==> Passes(q, maxSge)
    ensures Acceptable(q, maxSge) ==> Blocks(q) == (RequestBytes(q) + 63) / 64
  {
    hide WqebbNum;
    if Acceptable(q, maxSge) {
      NonZeroSet(q.lens);
      WqebbExact(CtlLen(q.op), Sges(q));
    }
  }

  /** A request that is accepted and fits the four blocks it is built in takes no more than are set aside.
      The limit of the device has 8 bits. */
  lemma BlocksFit(q: Request, maxSge: nat)
    requires Acceptable(q, maxSge) && maxSge < 0x100
    ensures 1 <= Blocks(q) && (Blocks(q) <= BlocksPer(maxSge) <==> Blocks(q) <= MAX_WQEBB)
  {
    hide WqebbNum;
    if q.op == Cas || q.op == Faa {
      WqebbGrows(NORMAL_CTL, NORMAL_CTL, 2, 2);
      WqebbExact(NORMAL_CTL, 2);
      WqebbGrows(NOTIFY_CTL, NOTIFY_CTL, 1, maxSge);
      WqebbExact(NOTIFY_CTL, 1);
    } else {
      WqebbGrows(CtlLen(q.op), NOTIFY_CTL, Sges(q), maxSge);
    }
  }

  lemma {:induction false} NonZeroAll(lens: seq<nat>)
    requires forall i :: 0 <= i < |lens| ==> lens[i] != 0
    ensures NonZero(lens) == |lens|
  {
    if lens != [] {
      NonZeroAll(lens[..|lens| - 1]);
    }
  }

  /** A write of 14 SGEs, under a limit of 14: it passes the checks and takes five blocks. */
  lemma FourteenSges() returns (q: Request)
    ensures Acceptable(q, 14) && Blocks(q) == 5
  {
    q := Request(Write, seq(14, _ => 1), 0);
    NonZeroAll(q.lens);
    WqebbExact(NORMAL_CTL, 14);
  }

  /** The driver takes the SGE limit from the device: every accepted request fits the four blocks it is
      built in exactly if that limit is at most 13. */
  lemma FitsExactly(maxSge: nat)
    ensures (forall q: Request :: Acceptable(q, maxSge) ==> Blocks(q) <= MAX_WQEBB) <==> maxSge <= 13
  {
    if maxSge <= 13 {
      forall q: Request | Acceptable(q, maxSge) ensures Blocks(q) <= MAX_WQEBB {
        WqebbFits(Sges(q));
      }
    } else {
      var q := FourteenSges();
      assert Acceptable(q, maxSge) && Blocks(q) > MAX_WQEBB;
    }
  }
}
