/** The valid map of the multi-producer command queue: one bit per slot, whose meaning alternates
    with the wrap bit. A slot is valid for a lap with wrap bit 0 when its bit is set, and for a lap
    with wrap bit 1 when its bit is clear.

    The source walks the map one machine word at a time. `Chunk` is the number of slots one
    iteration covers; the walk itself, on an array of words, is in `ValidMapWalk`. */
module ValidMap {
  import opened Arith
  import opened Ring

  const WORD: nat := 64

  /** Slots covered by one iteration that starts at `prod` and must stop at `eprod`. */
  function Chunk(k: nat, prod: nat, eprod: nat): (n: nat)
    ensures 1 <= n <= WORD
  {
    var s, e := Idx(k, prod), Idx(k, eprod);
    var limit := if s / WORD == e / WORD && s % WORD < e % WORD then e % WORD else WORD;
    limit - s % WORD
  }

  function FlipRange(v: seq<bool>, lo: nat, n: nat): (r: seq<bool>)
    ensures |r| == |v|
    ensures forall j :: 0 <= j < |v| ==> r[j] == (v[j] != (lo <= j < lo + n))
  {
    seq(|v|, j requires 0 <= j < |v| => v[j] != (lo <= j < lo + n))
  }

  /** Every slot of `[lo, lo + n)` is valid for a lap with wrap bit `wrap`. */
  predicate ValidFor(v: seq<bool>, lo: nat, n: nat, wrap: nat) {
    forall j :: lo <= j < lo + n && j < |v| ==> v[j] == (wrap == 0)
  }

  /** Moving within a lap moves the index and keeps the wrap bit. */
  lemma IdxAdd(k: nat, x: nat, d: nat)
    requires Idx(k, x) + d < Pow2(k)
    ensures Idx(k, x + d) == Idx(k, x) + d && Wrp(k, x + d) == Wrp(k, x)
  {
    var n := Pow2(k);
    DivMod(x, n);
    DivModUnique(x + d, n, x / n, x % n + d);
  }

  lemma SizeIsWords(k: nat)
    requires k >= 6
    ensures Pow2(k) % WORD == 0 && Pow2(k) >= WORD
    decreases k
  {
    if k == 6 {
      Pow2Literal();
    } else {
      SizeIsWords(k - 1);
    }
  }

  /** The word that holds an index lies entirely inside the map. */
  lemma WordFits(k: nat, x: nat)
    requires k >= 6
    ensures Idx(k, x) - Idx(k, x) % WORD + WORD <= Pow2(k)
  {
    hide Idx;
    SizeIsWords(k);
  }

  /** An iteration covers at least one slot, does not pass the end of the range, and stays inside
      the lap, so its slots are consecutive and share the wrap bit. */
  lemma ChunkBounds(k: nat, p: nat, q: nat, x: nat, e: nat)
    requires k >= 6 && At(k, p, x) && At(k, q, e)
    requires x < e <= x + Pow2(k)
    ensures x + Chunk(k, p, q) <= e
    ensures Idx(k, x) + Chunk(k, p, q) <= Pow2(k)
  {
    WordFits(k, x);
    var n := Chunk(k, p, q);
    if e < x + n {
      IdxAdd(k, x, e - x);
    }
  }

  /** Slots of one iteration: counter `x + d` uses slot `Idx(x) + d`. */
  lemma ChunkSlot(k: nat, x: nat, n: nat, y: nat)
    requires Idx(k, x) + n <= Pow2(k) && x <= y < x + n
    ensures Idx(k, y) == Idx(k, x) + (y - x) && Wrp(k, y) == Wrp(k, x)
  {
    IdxAdd(k, x, y - x);
  }
}
