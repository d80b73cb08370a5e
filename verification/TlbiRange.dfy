/** Range invalidation: splitting a range into (address, scale, num) commands, and the batch that carries
    them to the command queue. */
module TlbiRange {
  import opened Arith

  const NUM_MAX: nat := 31
  const SCALE_MAX: nat := 31
  const SCALE_LIMIT: nat := 15
  const BATCH_ENTRIES: nat := 32

  // ---------------------------------------------------------------- commands and what they cover

  /** A command covers `num` times 2^scale pages of 2^gs bytes from `addr`; `num` is stored less one. */
  datatype Tlbi = Tlbi(addr: nat, scale: nat, num: nat)

  function Length(gs: nat, c: Tlbi): nat {
    (c.num + 1) * Pow2(c.scale + gs)
  }

  /** The commands, in order, cover `[a, b)` without gap or overlap. */
  predicate Tiles(gs: nat, cmds: seq<Tlbi>, a: nat, b: nat) {
    if cmds == [] then a == b
    else var c := cmds[|cmds| - 1]; Tiles(gs, cmds[..|cmds| - 1], a, c.addr) && c.addr + Length(gs, c) == b
  }

  predicate CoversAddr(gs: nat, c: Tlbi, x: nat) {
    c.addr <= x < c.addr + Length(gs, c)
  }

  lemma LengthPositive(gs: nat, c: Tlbi)
    ensures Length(gs, c) >= 1
  {
    MulLe(Pow2(c.scale + gs), 1, c.num + 1);
  }

  lemma {:induction false} TilesOrder(gs: nat, cmds: seq<Tlbi>, a: nat, b: nat)
    requires Tiles(gs, cmds, a, b)
    ensures a <= b
  {
    if cmds != [] {
      TilesOrder(gs, cmds[..|cmds| - 1], a, cmds[|cmds| - 1].addr);
    }
  }

  /** A tiling covers exactly the addresses of its range, each by exactly one command. */
  lemma {:induction false} TilesExact(gs: nat, cmds: seq<Tlbi>, a: nat, b: nat, x: nat)
    requires Tiles(gs, cmds, a, b)
    ensures a <= x < b <==> exists i :: 0 <= i < |cmds| && CoversAddr(gs, cmds[i], x)
    ensures forall i, j ::
              0 <= i < |cmds| && 0 <= j < |cmds| && CoversAddr(gs, cmds[i], x) && CoversAddr(gs, cmds[j], x) ==> i == j
  {
    hide Length;
    if cmds != [] {
      var n := |cmds| - 1;
      TilesExact(gs, cmds[..n], a, cmds[n].addr, x);
      TilesOrder(gs, cmds[..n], a, cmds[n].addr);
      LengthPositive(gs, cmds[n]);
      if CoversAddr(gs, cmds[n], x) {
      } else if a <= x < b {
        var i :| 0 <= i < n && CoversAddr(gs, cmds[..n][i], x);
        assert CoversAddr(gs, cmds[i], x);
      }
      forall i | 0 <= i < |cmds| && CoversAddr(gs, cmds[i], x) ensures a <= x < b && (i < n ==> x < cmds[n].addr) {
        if i < n {
          assert CoversAddr(gs, cmds[..n][i], x);
        }
      }
      forall i, j | 0 <= i < |cmds| && 0 <= j < |cmds| && CoversAddr(gs, cmds[i], x) && CoversAddr(gs, cmds[j], x)
        ensures i == j
      {
        if i < n && j < n {
          assert CoversAddr(gs, cmds[..n][i], x) && CoversAddr(gs, cmds[..n][j], x);
        }
      }
    }
  }

  // ---------------------------------------------------------------- powers of two

  lemma Pow2Split(a: nat, b: nat)
    requires a <= b
    ensures Pow2(b) == Pow2(a) * Pow2(b - a)
  {
    Pow2Add(a, b - a);
  }

  lemma MulAssoc(a: nat, b: nat, c: nat)
    ensures a * b * c == a * (b * c)
  {}

  /** A multiple of a power of two is one of every smaller power. */
  lemma MultipleDown(p: nat, a: nat, b: nat)
    requires a <= b && p % Pow2(b) == 0
    ensures p % Pow2(a) == 0
  {
    Pow2Split(a, b);
    DivMod(p, Pow2(b));
    var q := p / Pow2(b);
    MulAssoc(Pow2(a), Pow2(b - a), q);
    DivModUnique(p, Pow2(a), Pow2(b - a) * q, 0);
  }

  /** `f` is the number of trailing zero bits of `p`. */
  predicate IsFfs(p: nat, f: nat) {
    p % Pow2(f) == 0 && p / Pow2(f) % 2 == 1
  }

  lemma FfsStep(p: nat, f: nat)
    requires p % Pow2(f) == 0 && p / Pow2(f) % 2 == 0
    ensures p % Pow2(f + 1) == 0
  {
    DivMod(p, Pow2(f));
    var q := p / Pow2(f);
    assert q == 2 * (q / 2);
    assert p == Pow2(f) * (2 * (q / 2)) == Pow2(f + 1) * (q / 2);
    DivModUnique(p, Pow2(f + 1), q / 2, 0);
  }

  /** __ffs. */
  method Ffs(p: nat) returns (f: nat)
    requires p > 0
    ensures IsFfs(p, f)
  {
    f := 0;
    while p / Pow2(f) % 2 == 0
      invariant p % Pow2(f) == 0
      decreases p - f
    {
      FfsStep(p, f);
      FfsBound(p, f + 1);
      f := f + 1;
    }
  }

  lemma FfsBound(p: nat, f: nat)
    requires p > 0 && p % Pow2(f) == 0
    ensures f < p
  {
    DivMod(p, Pow2(f));
    MulLe(Pow2(f), 1, p / Pow2(f));
    Pow2Exceeds(f);
  }

  lemma {:induction false} Pow2Exceeds(f: nat)
    ensures f < Pow2(f)
  {
    if f > 0 {
      Pow2Exceeds(f - 1);
    }
  }

  lemma FfsLargest(p: nat, f: nat, g: nat)
    requires IsFfs(p, f) && p % Pow2(g) == 0
    ensures g <= f
  {
    if g > f {
      MultipleDown(p, f + 1, g);
      DivMod(p, Pow2(f + 1));
      var q := p / Pow2(f + 1);
      assert p == Pow2(f) * (2 * q);
      DivModUnique(p, Pow2(f), 2 * q, 0);
    }
  }

  // ---------------------------------------------------------------- one command

  /** Pages in units of 2^k, and being a whole number of them. */
  function Quo(p: nat, k: nat): nat { DivMod(p, Pow2(k)); p / Pow2(k) }
  predicate Whole(p: nat, k: nat) { p % Pow2(k) == 0 }

  /** Pages that `n` units of 2^scale are. */
  function Pages(n: nat, scale: nat): nat { n * Pow2(scale) }

  function Scale(f: nat, cap: nat): nat { if f < cap then f else cap }

  /** The low five bits of the pages left, in units of the scale, or 31. */
  function Num(q: nat): (r: nat)
    ensures 1 <= r <= NUM_MAX && (q > 0 ==> r <= q)
  {
    if q % 32 != 0 then q % 32 else NUM_MAX
  }

  /** The pages left are a multiple of the scale, and what a command takes is there. */
  lemma StepTakes(p: nat, f: nat, cap: nat)
    requires p > 0 && IsFfs(p, f)
    ensures var k := Scale(f, cap); var q := Quo(p, k);
            p == Pow2(k) * q && q > 0 && Pages(Num(q), k) <= p && p - Pages(Num(q), k) == Pow2(k) * (q - Num(q))
  {
    var k := Scale(f, cap);
    MultipleDown(p, k, f);
    DivMod(p, Pow2(k));
    hide Pow2, Num, IsFfs;
    TakeUnits(p, Pow2(k), Quo(p, k), Num(Quo(p, k)));
  }

  lemma TakeUnits(p: nat, n: nat, q: nat, u: nat)
    requires p > 0 && p == n * q && (q > 0 ==> u <= q)
    ensures q > 0 && u * n <= p && p - u * n == n * (q - u)
  {
    assert q == 0 ==> p == 0;
    MulLe(n, u, q);
    assert n * (q - u) == n * q - n * u;
  }

  lemma FfsAtLeast(p: nat, f: nat, g: nat)
    requires IsFfs(p, f) && Whole(p, g)
    ensures g <= f
  {
    FfsLargest(p, f, g);
  }

  /** Below the cap a command takes the lowest five bits whole: the rest is a multiple of 2^(f + 5). */
  lemma SmallStep(p: nat, f: nat, cap: nat, k: nat, r: nat)
    requires p > 0 && IsFfs(p, f) && f < cap && Whole(p, 5 * k) && r == p - Pages(Num(Quo(p, f)), f)
    ensures Whole(r, 5 * k + 5) && Quo(r, cap + 5) == Quo(p, cap + 5) && 5 * k < cap
  {
    StepTakes(p, f, cap);
    FfsAtLeast(p, f, 5 * k);
    var q := Quo(p, f);
    assert q % 32 != 0 && q - Num(q) == 32 * (q / 32) by { OddLow(q); }
    hide Num, Pow2, IsFfs, Pages;
    SmallRest(p, f, q, r);
    MultipleDown(r, 5 * k + 5, f + 5);
    Pow2Split(f + 5, cap + 5);
    DivBy(p, Pow2(f + 5), Pow2(cap - f), Pow2(cap + 5));
    DivBy(r, Pow2(f + 5), Pow2(cap - f), Pow2(cap + 5));
  }

  lemma OddLow(q: nat)
    requires q % 2 == 1
    ensures q % 32 != 0
  {}

  lemma SmallRest(p: nat, f: nat, q: nat, r: nat)
    requires p == Pow2(f) * q && r == Pow2(f) * (32 * (q / 32))
    ensures r % Pow2(f + 5) == 0 && r / Pow2(f + 5) == q / 32 && p / Pow2(f + 5) == q / 32
  {
    hide Pow2;
    FiveBits(f);
    MulAssoc(Pow2(f), 32, q / 32);
    DivModUnique(r, Pow2(f + 5), q / 32, 0);
    DivMod(q, 32);
    assert p == Pow2(f) * (32 * (q / 32) + q % 32) == Pow2(f) * (32 * (q / 32)) + Pow2(f) * (q % 32);
    MulLt(Pow2(f), q % 32, 32);
    DivModUnique(p, Pow2(f + 5), q / 32, Pow2(f) * (q % 32));
  }

  /** Commands still needed for `m` units of the largest scale. */
  function Top(m: nat): nat {
    (if m % 32 != 0 then 1 else 0) + 2 * (m / 32)
  }

  lemma TopStep(m: nat)
    requires m > 0
    ensures Top(m - Num(m)) + 1 == Top(m)
  {}

  /** At the cap, each command brings the number still needed down by one. */
  lemma LargeStep(p: nat, f: nat, cap: nat, r: nat)
    requires p > 0 && IsFfs(p, f) && f >= cap && r == p - Pages(Num(Quo(p, cap)), cap)
    ensures Whole(p, cap) && Whole(r, cap) && Top(Quo(r, cap)) + 1 == Top(Quo(p, cap))
  {
    StepTakes(p, f, cap);
    MultipleDown(p, cap, f);
    var q := Quo(p, cap);
    hide Num, Pow2, Top, IsFfs, Pages;
    TopStep(q);
    DivModUnique(r, Pow2(cap), q - Num(q), 0);
  }

  lemma TopStart(p: nat, cap: nat)
    ensures Top(Quo(p, cap)) <= 1 + 2 * Quo(p, cap + 5)
  {
    hide Pow2, Top;
    FiveBits(cap);
    DivBy(p, Pow2(cap), 32, Pow2(cap + 5));
    TopAtMost(Quo(p, cap));
  }

  lemma FiveBits(k: nat)
    ensures Pow2(k + 5) == Pow2(k) * 32
  {
    Pow2Split(k, k + 5);
    assert Pow2(5) == 32;
  }

  lemma TopAtMost(m: nat)
    ensures Top(m) <= 1 + 2 * (m / 32)
  {}
}
