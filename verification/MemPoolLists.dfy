/** The loops of the pool's lock sections, in bytes as the source counts. */
module MemPoolLists {
  import opened Arith
  import opened Basics
  import opened MemPool

  lemma GranuMore(g: nat, k: nat)
    ensures g * (k + 1) == g * k + g && g * 0 == 0
  {}

  /** One list of conti_mem_allocator_contract: nodes move from its front until enough are taken. */
  method MoveUpTo(l: seq<nat>, granu: nat, count: nat) returns (taken: seq<nat>, rest: seq<nat>, left: nat, amount: nat)
    ensures var k := Min(count, |l|); taken == l[..k] && rest == l[k..] && left == count - k && amount == granu * k
  {
    taken, rest, left, amount := [], l, count, 0;
    GranuMore(granu, 0);
    while left > 0 && |rest| > 0
      invariant |taken| + left == count && |taken| <= |l| && amount == granu * |taken|
      invariant taken == l[..|taken|] && rest == l[|taken|..]
    {
      GranuMore(granu, |taken|);
      taken, rest := taken + [rest[0]], rest[1..];
      left, amount := left - 1, amount + granu;
    }
  }

  /** Of the two lists joined, the first `n` segments are taken, or all, and the rest is left, each list as the
      step of the pool leaves it; the amounts are those taken from each. */
  predicate ContractOf(s: Pool, granu: nat, n: nat, taken: seq<nat>, unclearedRest: seq<nat>, readyRest: seq<nat>,
                       fromUncleared: nat, fromReady: nat) {
    var all := s.uncleared + s.ready; var k := Min(n, |all|);
    var u := ContractFromUncleared(s, n); var r := ContractFromReady(s, n);
    && taken == all[..k] && unclearedRest + readyRest == all[k..]
    && unclearedRest == s.uncleared[u..] && readyRest == s.ready[r..]
    && fromUncleared == granu * u && fromReady == granu * r
  }

  lemma ContractNone(s: Pool, granu: nat, n: nat)
    requires n == 0
    ensures ContractOf(s, granu, n, [], s.uncleared, s.ready, 0, 0)
  {
    var u, r := ContractFromUncleared(s, n), ContractFromReady(s, n);
    assert u == 0 && r == 0;
    GranuMore(granu, 0);
    hide ContractFromUncleared, ContractFromReady;
    assert granu * u == 0 && granu * r == 0;
  }

  /** The two lists of conti_mem_allocator_contract, one after the other. */
  method ContractCount(s: Pool, granu: nat, n: nat)
    returns (taken: seq<nat>, unclearedRest: seq<nat>, readyRest: seq<nat>, left: nat, fromUncleared: nat,
             fromReady: nat)
    ensures ContractOf(s, granu, n, taken, unclearedRest, readyRest, fromUncleared, fromReady)
    ensures |taken| + left == n
  {
    var fromU, fromR, count;
    fromU, unclearedRest, count, fromUncleared := MoveUpTo(s.uncleared, granu, n);
    fromR, readyRest, left, fromReady := MoveUpTo(s.ready, granu, count);
    BothLists(s.uncleared, s.ready, n);
    taken := fromU + fromR;
  }

  /** conti_mem_allocator_contract: the uncleared list first, then the ready list; a size that is not a
      multiple of the granule takes nothing. */
  method ContractCut(s: Pool, granu: nat, size: nat)
    returns (taken: seq<nat>, unclearedRest: seq<nat>, readyRest: seq<nat>, contracted: nat, fromUncleared: nat,
             fromReady: nat)
    requires granu > 0
    ensures ContractOf(s, granu, Granules(granu, size), taken, unclearedRest, readyRest, fromUncleared, fromReady)
    ensures contracted == granu * |taken| <= size
  {
    hide ContractOf;
    if size == 0 || size % granu != 0 {
      NoGranules(granu, size);
      GranuMore(granu, 0);
      ContractNone(s, granu, 0);
      return [], s.uncleared, s.ready, 0, 0, 0;
    }
    var left;
    taken, unclearedRest, readyRest, left, fromUncleared, fromReady := ContractCount(s, granu, size / granu);
    ContractSize(granu, size, |taken|, left);
    contracted := size - left * granu;
  }

  /** The granules of a size that is a multiple of the granule; none for any other size. */
  function Granules(granu: nat, size: nat): nat
    requires granu > 0
  {
    if size % granu == 0 then size / granu else 0
  }

  lemma NoGranules(granu: nat, size: nat)
    requires granu > 0 && (size == 0 || size % granu != 0)
    ensures Granules(granu, size) == 0
  {
    DivModUnique(0, granu, 0, 0);
  }

  /** Up to `n` of one list and then of another are up to `n` of the two joined. */
  lemma BothLists(a: seq<nat>, b: seq<nat>, n: nat)
    ensures var i := Min(n, |a|); var j := Min(n - i, |b|); var k := Min(n, |a + b|);
            k == i + j && a[..i] + b[..j] == (a + b)[..k] && a[i..] + b[j..] == (a + b)[k..]
  {}

  lemma ContractSize(granu: nat, size: nat, taken: nat, left: nat)
    requires granu > 0 && size % granu == 0 && taken + left == size / granu
    ensures left * granu <= size && size - left * granu == granu * taken
  {
    DivMod(size, granu);
    assert granu * (taken + left) == granu * taken + left * granu;
  }

  /** One list of conti_alloc_memory: nodes are counted from its front until the size is reached. */
  method CountUpTo(l: seq<nat>, granu: nat, size: nat, have: nat) returns (k: nat, total: nat)
    requires granu > 0
    ensures k <= |l| && total == have + granu * k
    ensures k < |l| ==> total >= size
    ensures k > 0 ==> have + granu * (k - 1) < size
  {
    k, total := 0, have;
    GranuMore(granu, 0);
    while k < |l| && total < size
      invariant k <= |l| && total == have + granu * k
      invariant k > 0 ==> have + granu * (k - 1) < size
    {
      GranuMore(granu, k);
      k, total := k + 1, total + granu;
    }
  }

  /** For granule multiples the count is the number still wanted, or all there are. */
  lemma CountExact(granu: nat, n: nat, m: nat, k: nat, length: nat)
    requires granu > 0 && m <= n && k <= length
    requires k < length ==> granu * m + granu * k >= granu * n
    requires k > 0 ==> granu * m + granu * (k - 1) < granu * n
    ensures k == Min(n - m, length)
  {
    assert granu * m + granu * k == granu * (m + k);
    if m + k < n {
      MulLt(granu, m + k, n);
    }
    if m + k > n {
      assert granu * m + granu * (k - 1) == granu * (m + (k - 1));
      MulLe(granu, n, m + (k - 1));
    }
  }

  /** The lists an allocation may take from, in granules. */
  function Reachable(s: Pool, clear: bool, slow: bool): nat {
    if clear && !slow then |s.ready| else |s.ready| + |s.uncleared|
  }

  /** The lock section of conti_alloc_memory, for a size in bytes that need not be a multiple of the granule:
      granules are counted over the lists until the size is reached or nothing is left. More than the size is
      taken exactly if the size is not a multiple of the granule and the lists hold no less than the size. */
  method AllocCut(s: Pool, granu: nat, size: nat, clear: bool, slow: bool) returns (r: nat, u: nat, total: nat)
    requires granu > 0
    ensures r <= |s.ready| && u <= |s.uncleared| && total == granu * (r + u)
    ensures Cuts(granu, size, r + u, Reachable(s, clear, slow))
    ensures total > size <==> size % granu != 0 && granu * Reachable(s, clear, slow) >= size
    ensures size % granu == 0 ==>
              r == AllocFromReady(s, size / granu, clear) && u == AllocFromUncleared(s, size / granu, clear, slow)
  {
    var first := if clear then s.ready else s.uncleared;
    var k, a := CountUpTo(first, granu, size, 0);
    var j := 0;
    GranuMore(granu, 0);
    if !clear || slow {
      var second := if clear then s.uncleared else s.ready;
      j, a := CountUpTo(second, granu, size, a);
      BothCuts(granu, size, k, |first|, j, |second|);
    } else {
      BothCuts(granu, size, k, |first|, 0, 0);
    }
    CutExact(granu, size, k + j, Reachable(s, clear, slow));
    r, u, total := if clear then k else j, if clear then j else k, a;
  }

  /** `c` granules of the `have` that there are: the size is reached or nothing is left, and not before. */
  predicate Cuts(granu: nat, size: nat, c: nat, have: nat) {
    c <= have && (granu * c < size ==> c == have) && (c > 0 ==> granu * (c - 1) < size)
  }

  /** The two counts of one lock section: `k` from a list of `n`, then `j` from a list of `m`. */
  lemma BothCuts(granu: nat, size: nat, k: nat, n: nat, j: nat, m: nat)
    requires granu > 0 && k <= n && j <= m
    requires (k < n ==> granu * k >= size) && (k > 0 ==> granu * (k - 1) < size)
    requires (j < m ==> granu * k + granu * j >= size) && (j > 0 ==> granu * k + granu * (j - 1) < size)
    ensures granu * k + granu * j == granu * (k + j) && Cuts(granu, size, k + j, n + m)
    ensures size % granu == 0 ==> k == Min(size / granu, n) && j == Min(size / granu - k, m)
  {
    assert granu * k + granu * j == granu * (k + j);
    MulLe(granu, k, k + j);
    if j > 0 {
      assert granu * k + granu * (j - 1) == granu * (k + j - 1);
    }
    if size % granu == 0 {
      DivMod(size, granu);
      GranuMore(granu, 0);
      CountExact(granu, size / granu, 0, k, n);
      CountExact(granu, size / granu, k, j, m);
    }
  }

  lemma CutExact(granu: nat, size: nat, c: nat, have: nat)
    requires granu > 0 && Cuts(granu, size, c, have)
    ensures size % granu == 0 ==> c == Min(size / granu, have)
    ensures granu * c > size <==> size % granu != 0 && granu * have >= size
  {
    DivMod(size, granu);
    GranuMore(granu, 0);
    if size % granu == 0 {
      CountExact(granu, size / granu, 0, c, have);
      MulLe(granu, c, size / granu);
    } else if granu * c == size {
      DivModUnique(size, granu, c, 0);
    }
    MulLe(granu, c, have);
  }

  /** The loop of conti_alloc_memory_slow: `supply` segments are fetched, and cleared if asked, before the
      source refuses. What is left to allocate is a 64-bit number, and only 0 stops the loop before that. */
  method SlowCut(granu: nat, size: nat, supply: nat) returns (k: nat)
    requires 0 < granu < U64 && size < U64
    ensures SlowCuts(granu, size, k, supply)
  {
    hide Left, Sub;
    var left := size;
    k := 0;
    LeftAfter(granu, size, 0);
    while left != 0 && k < supply
      invariant k <= supply && left == Left(granu, size, k)
      invariant forall j :: 0 <= j < k ==> Left(granu, size, j) != 0
      decreases supply - k
    {
      LeftAfter(granu, size, k);
      left := Sub(left, granu);
      k := k + 1;
    }
  }

  predicate SlowCuts(granu: nat, size: nat, k: nat, supply: nat)
    requires size < U64
  {
    k <= supply && (k < supply ==> Left(granu, size, k) == 0) && forall j :: 0 <= j < k ==> Left(granu, size, j) != 0
  }

  /** What is left of the size after `k` granules, modulo 2^64. */
  function Left(granu: nat, size: nat, k: nat): (r: nat)
    requires size < U64
    ensures r < U64
  {
    Sub(size, granu * k % U64)
  }

  /** Subtraction of 64-bit numbers. */
  function Sub(a: nat, b: nat): (r: nat)
    requires a < U64 && b < U64
    ensures r < U64 && (r + b == a || r + b == a + U64)
  {
    if a >= b then a - b else a + U64 - b
  }

  lemma LeftAfter(granu: nat, size: nat, k: nat)
    requires 0 < granu < U64 && size < U64
    ensures Sub(Left(granu, size, k), granu) == Left(granu, size, k + 1)
    ensures k == 0 ==> Left(granu, size, k) == size
  {
    GranuMore(granu, k);
    WrapAdd(granu * k, granu);
  }

  lemma WrapAdd(p: nat, g: nat)
    requires g < U64
    ensures (p + g) % U64 == if p % U64 + g < U64 then p % U64 + g else p % U64 + g - U64
  {}

  /** Nothing is left exactly if the granules are the size, modulo 2^64. */
  lemma LeftZero(granu: nat, size: nat, k: nat)
    requires size < U64
    ensures Left(granu, size, k) == 0 <==> granu * k % U64 == size
  {}

  /** For a multiple of the granule the slow loop ends where it should. */
  lemma SlowEven(granu: nat, size: nat, k: nat, supply: nat)
    requires 0 < granu < U64 && size < U64 && size % granu == 0 && SlowCuts(granu, size, k, supply)
    ensures k == Min(size / granu, supply)
  {
    hide Left;
    var n := size / granu;
    DivMod(size, granu);
    DivModUnique(size, U64, 0, size);
    LeftZero(granu, size, n);
    if k < supply && k < n {
      LeftZero(granu, size, k);
      MulLt(granu, k, n);
      DivModUnique(granu * k, U64, 0, granu * k);
    }
  }

  /** For any other size it passes the end: it goes on as long as the source gives, or until 2^64 is passed. */
  lemma SlowOdd(granu: nat, size: nat, k: nat, supply: nat)
    requires 0 < granu < U64 && size < U64 && size % granu != 0 && SlowCuts(granu, size, k, supply)
    ensures k == supply || granu * k > size
  {
    hide Left;
    if k < supply {
      LeftZero(granu, size, k);
      DivMod(granu * k, U64);
      if granu * k == size {
        DivModUnique(size, granu, k, 0);
      }
    }
  }

  /** With a granule that divides 2^64, as every power of two does, it takes all that the source gives. */
  lemma SlowTakesAll(granu: nat, size: nat, k: nat, supply: nat)
    requires 0 < granu < U64 && size < U64 && U64 % granu == 0 && size % granu != 0 && SlowCuts(granu, size, k, supply)
    ensures k == supply
  {
    hide Left;
    if k < supply {
      LeftZero(granu, size, k);
      DivMod(U64, granu);
      DivMod(granu * k, U64);
      var q, w := granu * k / U64, U64 / granu;
      assert U64 * q == granu * (w * q);
      assert size == granu * (k - w * q);
      if k < w * q {
        MulLt(granu, k, w * q);
      }
      DivModUnique(size, granu, k - w * q, 0);
    }
  }

  /** conti_alloc_memory as a whole: granules from the lists, and with the slow path from a source that can
      give `supply` of them. More than the size is handed out, and the warning at its end reached, exactly if
      the size is not a multiple of the granule and there is no less than the size to be had. */
  method AllocAny(s: Pool, granu: nat, size: nat, clear: bool, slow: bool, supply: nat) returns (granules: nat)
    requires 0 < granu < U64 && size < U64
    ensures var have := Reachable(s, clear, slow) + (if slow then supply else 0);
            && (granu * granules > size <==> size % granu != 0 && granu * have >= size)
            && granules <= have && (size % granu == 0 ==> granules == Min(size / granu, have))
  {
    var r, u, total := AllocCut(s, granu, size, clear, slow);
    granules := r + u;
    ghost var have := Reachable(s, clear, slow);
    CutExact(granu, size, r + u, have);
    hide Reachable, AllocFromReady, AllocFromUncleared, SlowCuts;
    if slow && total < size {
      var k := SlowCut(granu, size - total, supply);
      granules := granules + k;
      SlowAfter(granu, size, have, k, supply);
    } else {
      MulLe(granu, have, have + supply);
      if total >= size && size % granu == 0 {
        DivMod(size, granu);
        if r + u < size / granu {
          MulLt(granu, r + u, size / granu);
        }
      }
    }
  }

  /** The lists gave all they had, `have` granules, and the slow loop `k` more. */
  lemma SlowAfter(granu: nat, size: nat, have: nat, k: nat, supply: nat)
    requires 0 < granu < U64 && granu * have < size < U64 && SlowCuts(granu, size - granu * have, k, supply)
    ensures granu * (have + k) > size <==> size % granu != 0 && granu * (have + supply) >= size
    ensures k <= supply && (size % granu == 0 ==> have + k == Min(size / granu, have + supply))
  {
    var rest := size - granu * have;
    SlowBound(granu, rest, k, supply);
    if rest % granu == 0 {
      SlowEven(granu, rest, k, supply);
    } else {
      SlowOdd(granu, rest, k, supply);
    }
    hide SlowCuts, Left;
    AddMultiple(rest, granu, have);
    AfterSum(granu, rest, have, k, supply);
  }

  lemma AfterSum(granu: nat, rest: nat, have: nat, k: nat, supply: nat)
    requires granu > 0 && k <= supply
    requires if rest % granu == 0 then k == Min(rest / granu, supply) else k == supply || granu * k > rest
    ensures var size := rest + granu * have;
            granu * (have + k) > size <==> rest % granu != 0 && granu * (have + supply) >= size
  {
    assert granu * (have + k) == granu * have + granu * k && granu * (have + supply) == granu * have + granu * supply;
    DivMod(rest, granu);
    MulLe(granu, k, supply);
    if rest % granu == 0 {
      MulLe(granu, k, rest / granu);
    } else if granu * k == rest {
      DivModUnique(rest, granu, k, 0);
    }
  }

  lemma SlowBound(granu: nat, size: nat, k: nat, supply: nat)
    requires size < U64 && SlowCuts(granu, size, k, supply)
    ensures k <= supply
  {}

  /** Granules of 2 MiB, 3 MiB asked for, two granules ready: 4 MiB are handed out. */
  method OddSizeExceeded(s: Pool) returns (granules: nat)
    requires |s.ready| == 2
    ensures granules == 2 && 0x20_0000 * granules > 0x30_0000
  {
    granules := AllocAny(s, 0x20_0000, 0x30_0000, true, false, 0);
  }

  /** The search of conti_mem_allocator_isolate_memseg: the ready list first, then the uncleared list. */
  method FindSegment(ready: seq<nat>, uncleared: seq<nat>, addr: nat) returns (found: bool, fromReady: bool, k: nat)
    ensures found <==> addr in ready || addr in uncleared
    ensures found ==>
              if fromReady then k < |ready| && ready[k] == addr
              else addr !in ready && k < |uncleared| && uncleared[k] == addr
  {
    k := 0;
    while k < |ready|
      invariant k <= |ready| && addr !in ready[..k]
    {
      if ready[k] == addr {
        return true, true, k;
      }
      k := k + 1;
    }
    assert ready[..k] == ready;
    k := 0;
    while k < |uncleared|
      invariant k <= |uncleared| && addr !in uncleared[..k]
    {
      if uncleared[k] == addr {
        return true, false, k;
      }
      k := k + 1;
    }
    assert uncleared[..k] == uncleared;
    return false, false, 0;
  }
}
