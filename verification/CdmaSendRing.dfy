/** The send ring of a JFS: posting work requests, and completions that free their blocks. */
module CdmaSendRing {
  import opened Arith
  import opened Basics
  import opened CdmaSizing

  /** A block of 64 bytes: the owner bit of the request it starts, and what it holds. */
  datatype Wqebb = Wqebb(owner: bool, data: nat, part: nat)

  datatype Status = Ok | Einval | Enomem

  /** The blocks of a request as they are built before the copy. */
  function Image(q: Request, owner: bool): (r: seq<Wqebb>)
    ensures |r| == Blocks(q)
  {
    seq(Blocks(q), (i: nat) => Wqebb(owner, q.data, i))
  }

  /** cdma_k_update_ptr, in blocks. */
  function Advance(cnt: nat, curr: nat, n: nat): nat {
    if curr + n < cnt then curr + n else curr + n - cnt
  }

  // ---------------------------------------------------------------- arithmetic of the ring

  /** A 32-bit counter of blocks selects the same slot and the same lap parity as the unbounded one. */
  lemma SlotOf(total: nat, k: nat)
    requires k < 32
    ensures (total % U32) % Pow2(k) == total % Pow2(k)
    ensures total % U32 / Pow2(k) % 2 == total / Pow2(k) % 2
  {
    Pow2Literal();
    Pow2Add(k, 32 - k);
    Pow2Add(1, 31 - k);
    assert Pow2(1) == 2;
    hide Pow2;
    SlotMod(total, U32, Pow2(k), Pow2(31 - k));
  }

  lemma SlotMod(total: nat, u: nat, n: nat, m: nat)
    requires n > 0 && m > 0 && u == n * (2 * m)
    ensures u > 0 && (total % u) % n == total % n && total % u / n % 2 == total / n % 2
  {
    MulLe(n, 1, 2 * m);
    DivMod(total, u);
    var q, r := total / u, total % u;
    Regroup(n, m, q);
    AddMultiple(r, n, 2 * (m * q));
    Parity(r / n, m * q);
  }

  lemma Regroup(n: nat, m: nat, q: nat)
    ensures n * (2 * m) * q == n * (2 * (m * q))
  {
    assert n * (2 * m) * q == n * (2 * m * q);
    assert 2 * m * q == 2 * (m * q);
  }

  lemma WrapSub(p: nat, c: nat)
    requires c <= p < c + U32
    ensures (p % U32 + U32 - c % U32) % U32 == p - c
  {}

  lemma WrapAdd(p: nat, n: nat)
    ensures (p % U32 + n) % U32 == (p + n) % U32
  {}

  lemma AdvanceSlot(p: nat, cnt: nat, n: nat)
    requires cnt > 0 && n <= cnt
    ensures Advance(cnt, p % cnt, n) == (p + n) % cnt
  {
    DivMod(p, cnt);
    var q, r := p / cnt, p % cnt;
    if r + n < cnt {
      DivModUnique(p + n, cnt, q, r + n);
    } else {
      assert cnt * (q + 1) == cnt * q + cnt;
      DivModUnique(p + n, cnt, q + 1, r + n - cnt);
    }
  }

  /** Two positions less than a lap apart have different slots. */
  lemma SlotsDiffer(a: nat, b: nat, cnt: nat)
    requires cnt > 0 && a < b < a + cnt
    ensures a % cnt != b % cnt
  {
    DivMod(a, cnt);
    DivMod(b, cnt);
    if a % cnt == b % cnt {
      if a / cnt < b / cnt {
        MulLt(cnt, a / cnt, b / cnt);
      } else {
        MulLe(cnt, b / cnt, a / cnt);
      }
    }
  }

  // ---------------------------------------------------------------- the ring

  /** `buf` holds the posted blocks from `done` on, each in its slot. */
  ghost predicate Holds(buf: seq<Wqebb>, posted: seq<Wqebb>, done: nat) {
    && |buf| > 0 && done <= |posted| <= done + |buf|
    && forall x :: done <= x < |posted| ==> buf[x % |buf|] == posted[x]
  }

  /** Slot `j` after `img` is copied to block `at` on, wrapping at the end of the buffer. */
  function NewAt(b: seq<Wqebb>, at: nat, img: seq<Wqebb>, j: nat): Wqebb
    requires at < |b| && j < |b|
  {
    if at <= j < at + |img| then img[j - at] else if j < at && j + |b| - at < |img| then img[j + |b| - at] else b[j]
  }

  predicate Copied(b: seq<Wqebb>, b': seq<Wqebb>, at: nat, img: seq<Wqebb>) {
    |b'| == |b| && at < |b| && |img| <= |b| && forall j :: 0 <= j < |b| ==> b'[j] == NewAt(b, at, img, j)
  }

  /** Copying new blocks leaves the outstanding ones alone and puts the new ones in their slots. */
  lemma CopyHolds(b: seq<Wqebb>, b': seq<Wqebb>, posted: seq<Wqebb>, done: nat, img: seq<Wqebb>)
    requires Holds(b, posted, done) && |posted| + |img| <= done + |b| && Copied(b, b', |posted| % |b|, img)
    ensures Holds(b', posted + img, done)
  {
    forall x | done <= x < |posted| + |img| ensures b'[x % |b|] == (posted + img)[x] {
      CopySlot(b, b', posted, done, img, x);
    }
  }

  lemma CopySlot(b: seq<Wqebb>, b': seq<Wqebb>, posted: seq<Wqebb>, done: nat, img: seq<Wqebb>, x: nat)
    requires Holds(b, posted, done) && |posted| + |img| <= done + |b| && Copied(b, b', |posted| % |b|, img)
    requires done <= x < |posted| + |img|
    ensures b'[x % |b|] == (posted + img)[x]
  {
    var cnt, p := |b|, |posted|;
    var at, j := p % cnt, x % cnt;
    assert b'[j] == NewAt(b, at, img, j);
    hide Copied;
    if x >= p {
      AdvanceSlot(p, cnt, x - p);
    } else {
      var i := if at <= j then j - at else j + cnt - at;
      AdvanceSlot(p, cnt, i);
      assert j == (p + i) % cnt;
      if i < |img| {
        SlotsDiffer(x, p + i, cnt);
        assert false;
      }
    }
  }

  function Ahead(entryIdx: nat, ci: nat, cnt: nat): nat
    requires ci < U32 && cnt > 0
  {
    (entryIdx + U32 - ci) % U32 % cnt
  }

  lemma FewerHeld(b: seq<Wqebb>, posted: seq<Wqebb>, done: nat, x: nat)
    requires Holds(b, posted, done) && done <= x <= |posted|
    ensures Holds(b, posted, x)
  {}

  /** The distance to the completed entry, from its 16 bits and the 32-bit consumer index. */
  lemma EntryDistance(entryIdx: nat, done: nat, x: nat, cnt: nat, m: nat)
    requires cnt > 0 && done <= x < done + cnt && entryIdx < U32 && entryIdx % cnt == x % cnt && U32 == cnt * m
    ensures Ahead(entryIdx, done % U32, cnt) == x - done
  {
    var a, c := entryIdx, done % U32;
    DivMod(a, cnt);
    DivMod(x, cnt);
    DivMod(done, U32);
    // a - c and x - done differ by a multiple of cnt
    var t := a / cnt - x / cnt + m * (done / U32);
    Distance(a, x, done, c, cnt, m, a / cnt, x / cnt, done / U32);
    MultipleMod(a - c, x - done, cnt, m, t);
  }

  /** The low 16 bits of a block counter, as the completion entry carries them. */
  function EntryIdx(x: nat): nat { x % 0x1_0000 }

  /** With the low 16 bits of the counter of the completed block the distance is right exactly if the block
      sits in the first 2^16 of the ring. */
  lemma IndexExact(done: nat, x: nat, k: nat)
    requires k <= 25 && done <= x < done + Pow2(k)
    ensures Ahead(EntryIdx(x), done % U32, Pow2(k)) == x - done <==> x % Pow2(k) < 0x1_0000
  {
    hide Ahead;
    var cnt := Pow2(k);
    RingFactor(k);
    LowBits(x, k);
    if EntryIdx(x) % cnt == x % cnt {
      EntryDistance(EntryIdx(x), done, x, cnt, Pow2(32 - k));
    } else {
      // the distance computed is the one to another block, with the slot that the index names
      var y := SameSlot(EntryIdx(x), done, cnt);
      EntryDistance(EntryIdx(x), done, y, cnt, Pow2(32 - k));
    }
  }

  /** The 16 bits name the slot of a block exactly if the slot number has no more bits. */
  lemma LowBits(x: nat, k: nat)
    ensures EntryIdx(x) % Pow2(k) == x % Pow2(k) <==> x % Pow2(k) < 0x1_0000
  {
    assert Pow2(8) == 0x100 && Pow2(16) == 0x1_0000;
    if k <= 16 {
      Pow2Add(k, 16 - k);
      Pow2Monotone(k, 16);
      hide Pow2;
      DivMod(x, Pow2(k));
      ModOfMod(x, Pow2(k), Pow2(16 - k));
    } else {
      Pow2Add(16, k - 16);
      Pow2Monotone(16, k);
      hide Pow2;
      ModOfMod(x, Pow2(16), Pow2(k - 16));
      DivModUnique(EntryIdx(x), Pow2(k), 0, EntryIdx(x));
      if x % Pow2(k) < 0x1_0000 {
        DivModUnique(x % Pow2(k), 0x1_0000, 0, x % Pow2(k));
      }
    }
  }

  lemma ModOfMod(x: nat, n: nat, m: nat)
    requires n > 0 && m > 0
    ensures n * m > 0 && x % (n * m) % n == x % n
  {
    MulLe(n, 1, m);
    DivMod(x, n * m);
    var q, r := x / (n * m), x % (n * m);
    assert n * m * q == n * (m * q);
    AddMultiple(r, n, m * q);
  }

  /** The position from `done` on, within a lap, that has the slot of `a`. */
  lemma SameSlot(a: nat, done: nat, cnt: nat) returns (y: nat)
    requires cnt > 0
    ensures done <= y < done + cnt && y % cnt == a % cnt
  {
    DivMod(done, cnt);
    DivMod(a, cnt);
    var q, r := done / cnt, a % cnt;
    if done % cnt <= r {
      y := cnt * q + r;
      DivModUnique(y, cnt, q, r);
    } else {
      y := cnt * (q + 1) + r;
      assert y == cnt * q + cnt + r;
      DivModUnique(y, cnt, q + 1, r);
    }
  }

  /** A ring of 2^17 blocks: the completion of block 2^16 is taken for that of block 0. */
  lemma IndexMisleads()
    ensures Ahead(EntryIdx(0x1_0000), 0, Pow2(17)) == 0
  {
    assert Pow2(8) == 0x100 && Pow2(17) == 0x2_0000;
  }

  /** Every outstanding block of every ring state is found from its 16 bits exactly if the ring has at most
      2^16 blocks. */
  lemma CompletionExact(k: nat)
    requires k <= 25
    ensures (forall done: nat, x: nat :: done <= x < done + Pow2(k) ==>
               Ahead(EntryIdx(x), done % U32, Pow2(k)) == x - done)
            <==> k <= 16
  {
    hide Ahead, EntryIdx;
    assert Pow2(8) == 0x100 && Pow2(16) == 0x1_0000;
    if k <= 16 {
      Pow2Monotone(k, 16);
      hide Pow2;
      forall done: nat, x: nat | done <= x < done + Pow2(k)
        ensures Ahead(EntryIdx(x), done % U32, Pow2(k)) == x - done
      {
        DivMod(x, Pow2(k));
        IndexExact(done, x, k);
      }
    } else {
      Pow2Monotone(17, k);
      assert Pow2(17) == 0x2_0000;
      hide Pow2;
      DivModUnique(0x1_0000, Pow2(k), 0, 0x1_0000);
      IndexExact(0, 0x1_0000, k);
    }
  }

  lemma CompletedIndex(entryIdx: nat, done: nat, x: nat, cnt: nat, m: nat)
    requires cnt > 0 && done <= x < done + cnt && entryIdx < U32 && entryIdx % cnt == x % cnt && U32 == cnt * m
    ensures (done % U32 + Ahead(entryIdx, done % U32, cnt)) % U32 == x % U32
    ensures (x % U32 + 1) % U32 == (x + 1) % U32
  {
    hide Ahead;
    EntryDistance(entryIdx, done, x, cnt, m);
    WrapAdd(done, x - done);
    WrapAdd(x, 1);
  }

  lemma Distance(a: nat, x: nat, done: nat, c: nat, cnt: nat, m: nat, qa: nat, qx: nat, qd: nat)
    requires a - cnt * qa == x - cnt * qx && done == U32 * qd + c && U32 == cnt * m
    ensures a - c == x - done + cnt * (qa - qx + m * qd)
  {
    assert cnt * m * qd == cnt * (m * qd);
    assert cnt * (qa - qx + m * qd) == cnt * qa - cnt * qx + cnt * (m * qd);
  }

  lemma MultipleMod(d: int, e: nat, cnt: nat, m: nat, t: int)
    requires e < cnt && d == e + cnt * t && 0 < d + U32 && d < U32 && U32 == cnt * m
    ensures (d + U32) % U32 % cnt == e
  {
    if d >= 0 {
      assert (d + U32) % U32 == d;
      NonNegative(d, e, cnt, t);
      DivModUnique(d, cnt, t, e);
    } else {
      assert (d + U32) % U32 == d + U32;
      assert cnt * (t + m) == cnt * t + cnt * m;
      NonNegative(d + U32, e, cnt, t + m);
      DivModUnique(d + U32, cnt, t + m, e);
    }
  }

  lemma NonNegative(d: nat, e: nat, cnt: nat, t: int)
    requires e < cnt && d == e + cnt * t
    ensures t >= 0
  {
    if t < 0 {
      MulLe(cnt, t, -1);
    }
  }

  lemma RingFactor(k: nat)
    requires k <= 25
    ensures U32 == Pow2(k) * Pow2(32 - k) && 1 <= Pow2(k) <= MOST_BLOCKS
  {
    Pow2Literal();
    Pow2Add(k, 32 - k);
    Pow2Monotone(k, 25);
    MostIsPow2();
  }

  /** The owner bit of a request posted at block `total`: it flips on every lap. */
  function OwnerAt(total: nat, cnt: nat): bool
    requires cnt > 0
  {
    total / cnt % 2 == 0
  }

  /** The blocks of a list of requests posted one after the other from block `total`. */
  function Images(total: nat, cnt: nat, reqs: seq<Request>): seq<Wqebb>
    requires cnt > 0
  {
    if reqs == [] then []
    else var r := Images(total, cnt, reqs[..|reqs| - 1]); r + Image(reqs[|reqs| - 1], OwnerAt(total + |r|, cnt))
  }

  lemma ImagesNext(start: seq<Wqebb>, cnt: nat, reqs: seq<Request>, n: nat)
    requires cnt > 0 && n < |reqs|
    ensures var r := start + Images(|start|, cnt, reqs[..n]);
            r + Image(reqs[n], OwnerAt(|r|, cnt)) == start + Images(|start|, cnt, reqs[..n + 1])
  {
    hide Image, OwnerAt;
    assert reqs[..n + 1][..n] == reqs[..n];
  }

  /** The 32-bit indices and the write position show the unbounded counts. */
  predicate IndexOk(pi: nat, ci: nat, kva: nat, posted: nat, done: nat, cnt: nat) {
    cnt > 0 && pi == posted % U32 && ci == done % U32 && kva == posted % cnt
  }

  /** The test of to_check_sq_overflow, in 32-bit arithmetic. */
  predicate Exceeds(pi: nat, ci: nat, cnt: nat, n: nat)
    requires ci < U32
  {
    ((pi + U32 - ci) % U32 + n) % U32 > cnt
  }

  lemma IndexOverflows(pi: nat, ci: nat, kva: nat, posted: nat, done: nat, cnt: nat, n: nat)
    requires IndexOk(pi, ci, kva, posted, done, cnt) && done <= posted <= done + cnt && cnt <= MOST_BLOCKS
    requires n <= MAX_WQEBB
    ensures ci < U32 && (Exceeds(pi, ci, cnt, n) <==> posted + n > done + cnt)
  {
    WrapSub(posted, done);
    var d := posted - done;
    assert (d + n) % U32 == d + n;
  }

  lemma IndexPost(pi: nat, ci: nat, kva: nat, posted: nat, done: nat, cnt: nat, n: nat)
    requires IndexOk(pi, ci, kva, posted, done, cnt) && n <= cnt
    ensures IndexOk((pi + n) % U32, ci, Advance(cnt, kva, n), posted + n, done, cnt)
  {
    hide Advance;
    AdvanceSlot(posted, cnt, n);
    WrapAdd(posted, n);
  }

  lemma IndexOwner(pi: nat, ci: nat, kva: nat, posted: nat, done: nat, k: nat)
    requires IndexOk(pi, ci, kva, posted, done, Pow2(k)) && k < 32
    ensures (pi / Pow2(k) % 2 == 0) == OwnerAt(posted, Pow2(k))
  {
    SlotOf(posted, k);
    hide Pow2;
  }

  lemma IndexComplete(pi: nat, ci: nat, kva: nat, posted: nat, done: nat, cnt: nat, entryIdx: nat, x: nat, m: nat)
    requires IndexOk(pi, ci, kva, posted, done, cnt)
    requires done <= x < done + cnt && entryIdx < U32 && entryIdx % cnt == x % cnt && U32 == cnt * m
    ensures ci < U32 && IndexOk(pi, (ci + Ahead(entryIdx, ci, cnt)) % U32, kva, posted, x, cnt)
    ensures IndexOk(pi, ((ci + Ahead(entryIdx, ci, cnt)) % U32 + 1) % U32, kva, posted, x + 1, cnt)
  {
    hide Ahead;
    CompletedIndex(entryIdx, done, x, cnt, m);
  }

  /** A request that passes the checks fits the four blocks on the stack that it is built in; `FitsExactly`
      says when every request does. */
  predicate Builds(q: Request, maxSge: nat) {
    Acceptable(q, maxSge) ==> Blocks(q) <= MAX_WQEBB
  }

  class SendQueue {
    const k: nat
    const cnt: nat                 // entry_cnt
    const maxSge: nat
    const buf: array<Wqebb>
    var pi: nat
    var ci: nat
    var kva: nat                   // kva_curr, as a block of the buffer
    ghost var posted: seq<Wqebb>   // every block ever posted
    ghost var done: nat            // blocks before it are completed

    ghost predicate Valid()
      reads this, buf
    {
      && 6 <= k <= 25 && cnt == Pow2(k) && buf.Length == cnt && maxSge < 0x100
      && IndexOk(pi, ci, kva, |posted|, done, cnt) && Holds(buf[..], posted, done)
    }

    constructor (order: nat, limit: nat)
      requires 6 <= order <= 25 && limit < 0x100
      ensures Valid() && fresh(buf) && k == order && maxSge == limit && posted == [] && done == 0
    {
      RingFactor(order);
      k, cnt, maxSge := order, Pow2(order), limit;
      buf := new Wqebb[Pow2(order)](_ => Wqebb(false, 0, 0));
      pi, ci, kva := 0, 0, 0;
      posted, done := [], 0;
    }

    /** to_check_sq_overflow. */
    method Overflows(n: nat) returns (r: bool)
      requires Valid() && n <= MAX_WQEBB
      ensures r <==> |posted| + n > done + cnt
    {
      RingFactor(k);
      IndexOverflows(pi, ci, kva, |posted|, done, cnt, n);
      hide Pow2, IndexOk, Exceeds, Holds;
      r := Exceeds(pi, ci, cnt, n);
    }

    /** memcpy of `n` blocks of `img` from `from` to block `at` of the buffer. */
    method CopyTo(at: nat, img: seq<Wqebb>, from: nat, n: nat)
      requires at + n <= buf.Length && from + n <= |img|
      modifies buf
      ensures forall j :: 0 <= j < buf.Length ==> buf[j] == if at <= j < at + n then img[from + j - at] else old(buf[j])
    {
      for i := 0 to n
        invariant forall j :: 0 <= j < buf.Length ==>
                    buf[j] == if at <= j < at + i then img[from + j - at] else old(buf[j])
      {
        buf[at + i] := img[from + i];
      }
    }

    /** cdma_copy_to_sq. */
    method CopyToSq(img: seq<Wqebb>) returns (ok: bool)
      requires Valid() && 1 <= |img| <= MAX_WQEBB
      modifies buf
      ensures ok <==> |posted| + |img| <= done + cnt
      ensures ok ==> Copied(old(buf[..]), buf[..], kva, img)
      ensures !ok ==> buf[..] == old(buf[..])
    {
      var full := Overflows(|img|);
      if full {
        return false;
      }
      SlotOf(|posted|, k);
      RingFactor(k);
      DivMod(pi, cnt);
      Pow2Monotone(6, k);
      assert Pow2(6) == 64;
      hide Pow2, Holds;
      var remain := cnt - pi % cnt;
      var tail := if remain > |img| then |img| else remain;
      var head := |img| - tail;
      ghost var b := buf[..];
      CopyTo(kva, img, 0, tail);
      if head > 0 {
        CopyTo(0, img, tail, head);
      }
      CopiedParts(b, buf[..], kva, img, tail);
      ok := true;
    }

    /** cdma_post_one_wr: the request is refused for what it is, or for want of room, and then nothing
        changes; otherwise its blocks follow those posted before. */
    method PostOne(q: Request) returns (s: Status)
      requires Valid() && Builds(q, maxSge)
      modifies this, buf
      ensures Valid() && done == old(done)
      ensures s == Einval <==> !Acceptable(q, maxSge)
      ensures s == Enomem <==> Acceptable(q, maxSge) && |old(posted)| + Blocks(q) > done + cnt
      ensures posted == if s == Ok then old(posted) + Image(q, OwnerAt(|old(posted)|, cnt)) else old(posted)
      ensures var n := (RequestBytes(q) + 63) / 64;
              s == if !Passes(q, maxSge) then Einval else if |old(posted)| + n > done + cnt then Enomem else Ok
      ensures s == Ok ==> |posted| == |old(posted)| + (RequestBytes(q) + 63) / 64 && old(posted) <= posted
      ensures s == Ok ==> forall j :: |old(posted)| <= j < |posted| ==>
                posted[j] == Wqebb(|old(posted)| / cnt % 2 == 0, q.data, j - |old(posted)|)
    {
      RequestExact(q, maxSge);
      hide RequestBytes, Passes;
      if !Acceptable(q, maxSge) {
        return Einval;
      }
      BlocksFit(q, maxSge);
      RingFactor(k);
      IndexOwner(pi, ci, kva, |posted|, done, k);
      Pow2Monotone(6, k);
      assert Pow2(6) == 64;
      hide Pow2, Blocks, Acceptable, Image, OwnerAt;
      var img := Image(q, pi / cnt % 2 == 0);
      ghost var b := buf[..];
      var ok := CopyToSq(img);
      if !ok {
        return Enomem;
      }
      CopyHolds(b, buf[..], posted, done, img);
      IndexPost(pi, ci, kva, |posted|, done, cnt, |img|);
      hide Copied, Holds, IndexOk, Advance;
      kva := Advance(cnt, kva, |img|);
      pi := (pi + |img|) % U32;
      posted := posted + img;
      s := Ok;
    }

    /** The loop of cdma_post_sq_wr: requests are posted in order up to the first that fails. */
    method PostList(reqs: seq<Request>) returns (n: nat, s: Status)
      requires Valid() && forall i :: 0 <= i < |reqs| ==> Builds(reqs[i], maxSge)
      modifies this, buf
      ensures Valid() && done == old(done) && n <= |reqs| && (s == Ok <==> n == |reqs|)
      ensures posted == old(posted) + Images(|old(posted)|, cnt, reqs[..n])
      ensures s == Einval ==> !Acceptable(reqs[n], maxSge)
      ensures s == Enomem ==> Acceptable(reqs[n], maxSge) && |posted| + Blocks(reqs[n]) > done + cnt
    {
      RingFactor(k);
      hide Pow2, Blocks, Acceptable, Builds, Image, Holds, OwnerAt;
      assert Images(|posted|, cnt, reqs[..0]) == [];
      hide Images;
      n, s := 0, Ok;
      ghost var start := posted;
      while n < |reqs|
        invariant Valid() && done == old(done) && n <= |reqs| && s == Ok
        invariant posted == start + Images(|start|, cnt, reqs[..n])
      {
        s := PostOne(reqs[n]);
        if s != Ok {
          return;
        }
        ImagesNext(start, cnt, reqs, n);
        n := n + 1;
      }
    }

    /** A completion of the request whose last block is the outstanding block `x`: cdma_update_jetty_idx,
        and for a known status the step past it in cdma_update_flush_cr. The 16-bit index must name the
        block; `IndexExact` says when it does. */
    method Complete(entryIdx: nat, known: bool, ghost x: nat)
      requires Valid() && done <= x < |posted| && entryIdx < 0x1_0000 && entryIdx % cnt == x % cnt
      modifies this
      ensures Valid() && posted == old(posted) && pi == old(pi) && done == if known then x + 1 else x
    {
      RingFactor(k);
      IndexComplete(pi, ci, kva, |posted|, done, cnt, entryIdx, x, Pow2(32 - k));
      FewerHeld(buf[..], posted, done, x);
      FewerHeld(buf[..], posted, done, x + 1);
      hide Pow2, Holds, Ahead, IndexOk;
      ci := (ci + Ahead(entryIdx, ci, cnt)) % U32;
      done := x;
      if known {
        ci := (ci + 1) % U32;
        done := x + 1;
      }
    }
  }

  lemma CopiedParts(b: seq<Wqebb>, b': seq<Wqebb>, at: nat, img: seq<Wqebb>, tail: nat)
    requires |b'| == |b| && at < |b| && |img| <= |b| && tail == (if |b| - at > |img| then |img| else |b| - at)
    requires forall j :: 0 <= j < |b| ==>
               b'[j] == if j < |img| - tail then img[tail + j] else if at <= j < at + tail then img[j - at] else b[j]
    ensures Copied(b, b', at, img)
  {}

  // ---------------------------------------------------------------- room for the promised depth

  function TotalBlocks(reqs: seq<Request>): nat {
    if reqs == [] then 0 else TotalBlocks(reqs[..|reqs| - 1]) + Blocks(reqs[|reqs| - 1])
  }

  lemma {:induction false} ImagesLength(total: nat, cnt: nat, reqs: seq<Request>)
    requires cnt > 0
    ensures |Images(total, cnt, reqs)| == TotalBlocks(reqs)
  {
    hide Blocks;
    if reqs != [] {
      ImagesLength(total, cnt, reqs[..|reqs| - 1]);
    }
  }

  lemma {:induction false} TotalBound(reqs: seq<Request>, maxSge: nat)
    requires maxSge < 0x100 && forall i :: 0 <= i < |reqs| ==> Postable(reqs[i], maxSge)
    ensures TotalBlocks(reqs) <= |reqs| * BlocksPer(maxSge)
  {
    hide Blocks, BlocksPer, Acceptable;
    if reqs != [] {
      var n := |reqs| - 1;
      TotalBound(reqs[..n], maxSge);
      BlocksFit(reqs[n], maxSge);
      assert (n + 1) * BlocksPer(maxSge) == n * BlocksPer(maxSge) + BlocksPer(maxSge);
    }
  }

  lemma DepthEnough(maxSge: nat, depth: nat, reqs: seq<Request>, n: nat, cnt: nat)
    requires maxSge < 0x100 && n < |reqs| <= depth && forall i :: 0 <= i < |reqs| ==> Postable(reqs[i], maxSge)
    requires cnt >= BlocksPer(maxSge) * depth && cnt > 0
    ensures |Images(0, cnt, reqs[..n])| + Blocks(reqs[n]) <= cnt
  {
    hide Blocks, BlocksPer, Acceptable;
    ImagesLength(0, cnt, reqs[..n]);
    assert reqs[..n + 1][..n] == reqs[..n];
    TotalBound(reqs[..n + 1], maxSge);
    MulLe(BlocksPer(maxSge), n + 1, depth);
  }

  /** A request that passes the checks and fits the four blocks it is built in. */
  predicate Postable(q: Request, maxSge: nat) {
    Acceptable(q, maxSge) && Blocks(q) <= MAX_WQEBB
  }

  /** The overflow test of a ring without blocks refuses every request. */
  method NothingFits(q: Request, maxSge: nat) returns (refused: bool)
    requires Postable(q, maxSge) && maxSge < 0x100
    ensures refused
  {
    hide Blocks, Acceptable;
    BlocksFit(q, maxSge);
    refused := Exceeds(0, 0, 0, Blocks(q));
  }

  /** A ring built for a depth takes that many requests of any kind when it is empty, exactly if the blocks
      for them are at most 2^25; above that the ring has no block and takes none. */
  method DepthAccepted(maxSge: nat, depth: nat, reported: nat, reqs: seq<Request>) returns (n: nat, sq: SendQueue?)
    requires maxSge < 0x100 && DepthOk(depth, reported) && |reqs| <= depth
    requires forall i :: 0 <= i < |reqs| ==> Postable(reqs[i], maxSge)
    ensures n == |reqs| <==> reqs == [] || BlocksPer(maxSge) * depth <= MOST_BLOCKS
    ensures sq != null <==> BlocksPer(maxSge) * depth <= MOST_BLOCKS
    ensures sq != null ==> fresh(sq) && sq.Valid() && sq.posted == Images(0, sq.cnt, reqs) && sq.done == 0
    ensures sq == null ==> n == 0
  {
    var entryCnt, k := RingSize(maxSge, depth, reported);
    hide Blocks, Acceptable, BlocksPer, Holds;
    if entryCnt == 0 {
      MulLe(depth, 1, BlocksPer(maxSge));
      n, sq := 0, null;
      if reqs != [] {
        var refused := NothingFits(reqs[0], maxSge);
        assert refused;
      }
      return;
    }
    var ring := new SendQueue(k, maxSge);
    var s;
    n, s := ring.PostList(reqs);
    hide Pow2;
    assert [] + Images(0, ring.cnt, reqs[..n]) == Images(0, ring.cnt, reqs[..n]);
    if s != Ok {
      DepthEnough(maxSge, depth, reqs, n, ring.cnt);
      assert false;
    }
    assert reqs[..n] == reqs;
    sq := ring;
  }

  /** A depth of 2^23 + 1 requests of four blocks: the ring is built without any block. */
  method DepthTooLarge() returns (entryCnt: nat, k: nat)
    ensures DepthOk(0x80_0001, 0x200_0004) && entryCnt == 0
  {
    assert BlocksPer(13) == 4;
    entryCnt, k := RingSize(13, 0x80_0001, 0x200_0004);
  }
}
