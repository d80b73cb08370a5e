/** ummu_mcmdq_poll_set_valid_map: the walk over the words of the valid map.

    A 64-bit word is the set of its one bits, so that XOR with a mask is a symmetric difference. */
module ValidMapWalk {
  import opened Arith
  import opened Ring
  import opened ValidMap
  import opened Mcmdq
  import opened McmdqReserve

  type Word = set<nat>

  ghost predicate Words(k: nat, w: seq<Word>) {
    && |w| * WORD == Pow2(k)
    && forall i, b :: 0 <= i < |w| && b in w[i] ==> b < WORD
  }

  /** The bit of slot `j`. */
  predicate Bit(w: seq<Word>, j: nat)
    requires j < |w| * WORD
  {
    j % WORD in w[j / WORD]
  }

  /** Slot `j` is used by one of the counters `[x, e)`. */
  ghost predicate Covers(k: nat, x: nat, e: nat, j: nat) {
    exists y :: x <= y < e && Idx(k, y) == j
  }

  /** Exactly the slots of the counters `[x, e)` differ between the two maps. */
  ghost predicate FlippedIn(k: nat, before: seq<Word>, after: seq<Word>, x: nat, e: nat) {
    && |after| == |before|
    && forall j :: 0 <= j < |before| * WORD ==> (Bit(after, j) == (Bit(before, j) != Covers(k, x, e, j)))
  }

  /** Every slot of the counters `[x, e)` is valid for its own lap. */
  ghost predicate AllValid(k: nat, w: seq<Word>, x: nat, e: nat) {
    forall y :: x <= y < e && Idx(k, y) < |w| * WORD ==> (Bit(w, Idx(k, y)) == (Wrp(k, y) == 0))
  }

  function Xor(a: Word, b: Word): (r: Word)
    ensures forall x :: x in r <==> ((x in a) != (x in b))
  {
    (a - b) + (b - a)
  }

  /** GENMASK: `n` one bits from bit `lo` up. */
  function GenMask(lo: nat, n: nat): (r: Word)
    ensures forall b :: b in r <==> lo <= b < lo + n
  {
    if n == 0 then {} else GenMask(lo, n - 1) + {lo + n - 1}
  }

  /** The bits of one iteration, at counter `p`, are bits `lo .. lo + n` of one word. */
  lemma ChunkWord(k: nat, p: nat, n: nat, words: nat)
    requires words * WORD == Pow2(k) && n >= 1 && Idx(k, p) % WORD + n <= WORD
    ensures Idx(k, p) / WORD < words && Idx(k, p) + n <= Pow2(k)
    ensures forall y :: p <= y < p + n ==>
              && Idx(k, y) == Idx(k, p) + (y - p) && Wrp(k, y) == Wrp(k, p)
              && Idx(k, y) / WORD == Idx(k, p) / WORD && Idx(k, y) % WORD == Idx(k, p) % WORD + (y - p)
  {
    assert Idx(k, p) + n <= Pow2(k) by { hide Idx; }
    forall y | p <= y < p + n
      ensures Idx(k, y) == Idx(k, p) + (y - p) && Wrp(k, y) == Wrp(k, p)
    {
      ChunkSlot(k, p, n, y);
    }
    hide Idx, Wrp;
  }

  /** Extending a range of at most a lap by one iteration covers exactly the iteration's new bits. */
  lemma CoverMore(k: nat, x: nat, p: nat, n: nat, j: nat)
    requires x <= p && p + n <= x + Pow2(k) && Idx(k, p) + n <= Pow2(k)
    ensures Covers(k, x, p + n, j) <==> Covers(k, x, p, j) != (Idx(k, p) <= j < Idx(k, p) + n)
  {
    hide Idx, Wrp;
    if Idx(k, p) <= j < Idx(k, p) + n {
      var y := p + (j - Idx(k, p));
      ChunkSlot(k, p, n, y);
      if Covers(k, x, p, j) {
        var z :| x <= z < p && Idx(k, z) == j;
        SlotInjective(k, y, z);
      }
    } else if Covers(k, x, p + n, j) {
      var z :| x <= z < p + n && Idx(k, z) == j;
      if z >= p {
        ChunkSlot(k, p, n, z);
      }
    }
  }

  lemma FlipMore(k: nat, w0: seq<Word>, w: seq<Word>, w': seq<Word>, x: nat, p: nat, n: nat)
    requires Words(k, w0) && FlippedIn(k, w0, w, x, p)
    requires x <= p && p + n <= x + Pow2(k) && n >= 1 && Idx(k, p) % WORD + n <= WORD
    requires Idx(k, p) / WORD < |w|
    requires w' == w[Idx(k, p) / WORD := Xor(w[Idx(k, p) / WORD],
                                             GenMask(Idx(k, p) % WORD, n))]
    ensures FlippedIn(k, w0, w', x, p + n)
  {
    hide Covers, Wrp;
    ChunkWord(k, p, n, |w|);
    hide Idx;
    forall j | 0 <= j < |w0| * WORD
      ensures Bit(w', j) == (Bit(w0, j) != Covers(k, x, p + n, j))
    {
      CoverMore(k, x, p, n, j);
      assert Bit(w', j) == (Bit(w, j) != (Idx(k, p) <= j < Idx(k, p) + n));
    }
  }

  /** The walk: with `flip` it marks every slot of the range, otherwise it tests them all and reports
      whether the poll is satisfied. The loop compares pointers, never counters. */
  method PollSetValidMap(k: nat, map_: array<Word>, sprod: nat, eprod: nat, flip: bool, ghost x: nat, ghost e: nat)
    returns (ready: bool)
    requires 6 <= k <= 30 && Words(k, map_[..])
    requires x <= e <= x + Pow2(k) && sprod == Ptr(k, x) && eprod == Ptr(k, e)
    modifies map_
    ensures Words(k, map_[..])
    ensures flip ==> ready && FlippedIn(k, old(map_[..]), map_[..], x, e)
    ensures !flip ==> map_[..] == old(map_[..]) && (ready <==> AllValid(k, map_[..], x, e))
  {
    var prod := sprod;
    ghost var p := x;
    ready := true;
    NothingCovered(k, map_[..], x);
    while prod != eprod
      invariant x <= p <= e && prod == Ptr(k, p)
      invariant Words(k, map_[..])
      invariant ready
      invariant flip ==> FlippedIn(k, old(map_[..]), map_[..], x, p)
      invariant !flip ==> map_[..] == old(map_[..]) && AllValid(k, map_[..], x, p)
      decreases e - p
    {
      hide Ptr, Idx, Wrp, Ovf, IncProd, FlippedIn, AllValid;
      ghost var w := map_[..];
      PtrFacts(k, p);
      PtrFacts(k, e);
      IterationFits(k, p, e);
      var n := Chunk(k, prod, eprod);
      assert prod == Ptr(k, p) && n == Chunk(k, Ptr(k, p), Ptr(k, e));
      var swidx, sbidx := Idx(k, prod) / WORD, Idx(k, prod) % WORD;
      ChunkWord(k, p, n, map_.Length);
      var mask := GenMask(sbidx, n);
      if flip {
        map_[swidx] := Xor(map_[swidx], mask);
        FlipMore(k, old(map_[..]), w, map_[..], x, p, n);
      } else {
        var valid := if Wrp(k, prod) == 0 then mask else {};
        MaskTest(k, w, x, e, p, n, mask, valid);
        if map_[swidx] * mask != valid {
          ready := false;
          return;
        }
      }
      IncPtr(k, p, n);
      prod := IncProd(k, prod, n);
      p := p + n;
    }
    PtrInjective(k, p, e);
  }

  lemma NothingCovered(k: nat, w: seq<Word>, x: nat)
    ensures FlippedIn(k, w, w, x, x)
  {}

  lemma IterationFits(k: nat, p: nat, e: nat)
    requires 6 <= k <= 30 && p <= e <= p + Pow2(k) && Ptr(k, p) != Ptr(k, e)
    ensures var n := Chunk(k, Ptr(k, p), Ptr(k, e));
            p + n <= e && Idx(k, p) % WORD + n <= WORD
  {
    hide Ptr, Idx, Wrp;
    PtrFacts(k, p);
    PtrFacts(k, e);
    ChunkBounds(k, Ptr(k, p), Ptr(k, e), p, e);
  }

  /** The masked comparison tests exactly the iteration's slots. */
  lemma MaskTest(k: nat, w: seq<Word>, x: nat, e: nat, p: nat, n: nat, mask: Word, valid: Word)
    requires Words(k, w) && n >= 1 && Idx(k, p) % WORD + n <= WORD && x <= p < p + n <= e
    requires Idx(k, p) / WORD < |w|
    requires mask == GenMask(Idx(k, p) % WORD, n)
    requires valid == if Wrp(k, p) == 0 then mask else {}
    requires AllValid(k, w, x, p)
    ensures w[Idx(k, p) / WORD] * mask == valid ==> AllValid(k, w, x, p + n)
    ensures w[Idx(k, p) / WORD] * mask != valid ==> !AllValid(k, w, x, e)
  {
    ChunkWord(k, p, n, |w|);
    hide Idx, Wrp;
    var word, lo := w[Idx(k, p) / WORD], Idx(k, p) % WORD;
    if word * mask == valid {
      forall y | p <= y < p + n ensures Bit(w, Idx(k, y)) == (Wrp(k, y) == 0) {
        assert lo + (y - p) in mask;
        assert lo + (y - p) in word <==> lo + (y - p) in word * mask;
      }
    } else {
      var b :| b in word * mask <==> b !in valid;
      var y := p + (b - lo);
      assert b in mask && Idx(k, y) % WORD == b;
      assert Bit(w, Idx(k, y)) != (Wrp(k, y) == 0);
    }
  }
}
