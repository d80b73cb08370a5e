/** The four-level permission table (MAPT): nodes, level blocks, and the address ranges they span.

    A level block is an array of 512 nodes. A node of level `l` spans `Span(l)` addresses; it holds
    at most one range of its own, relative to its span, and optionally leads to a level block of the
    next level for further ranges in the same span. Level blocks are numbered; four consecutive
    numbers share one allocated MAPT block. */
module MaptModel {
  import opened Arith

  const ENTRIES: nat := 512
  const LEVELS: nat := 4
  const PER_BLOCK: nat := 4          // level blocks in one MAPT block
  const MAX_IDS: nat := 2048         // size of level_block_bitmap
  const PAGE: nat := 0x1000
  const INVALID_ADDR: nat := 0xFFF   // marker of a removed own range
  const ADDRESSES: nat := 0x1_0000_0000_0000

  /** Addresses spanned by a node of a level: bits 39, 30, 21 and 12 of g_mapt_range_bits. */
  function Span(l: nat): (r: nat)
    ensures r >= PAGE
  {
    if l == 0 then 0x80_0000_0000 else if l == 1 then 0x4000_0000 else if l == 2 then 0x20_0000 else PAGE
  }

  /** Addresses spanned by a level block. */
  function BlockSpan(l: nat): (r: nat)
    ensures r >= PAGE
  {
    if l == 0 then ADDRESSES else Span(l - 1)
  }

  lemma NextSpan(l: nat)
    ensures BlockSpan(l + 1) == Span(l)
  {}

  /** GET_LEVEL_BLOCK_INDEX: the entry of a level block that an address selects. */
  function IndexAt(l: nat, a: nat): (r: nat)
    ensures r < ENTRIES
  {
    (a / Span(l)) % ENTRIES
  }

  /** GET_LEVEL_BASE: the address relative to the node that contains it. */
  function OffsetAt(l: nat, a: nat): (r: nat)
    ensures r < Span(l)
  {
    a % Span(l)
  }

  /** Start of entry `i` of a level block that starts at `pfx`. */
  function EntryBase(l: nat, pfx: nat, i: nat): (r: nat)
    ensures r >= pfx
  {
    pfx + i * Span(l)
  }

  lemma EntryFits(l: nat, pfx: nat, i: nat)
    requires l < LEVELS && i < ENTRIES
    ensures EntryBase(l, pfx, i) + Span(l) <= pfx + BlockSpan(l)
  {}

  lemma EntryOrder(l: nat, pfx: nat, i: nat, j: nat)
    requires i < j
    ensures EntryBase(l, pfx, i) + Span(l) <= EntryBase(l, pfx, j)
  {
    assert (j - i) * Span(l) >= Span(l);
    assert j * Span(l) == i * Span(l) + (j - i) * Span(l);
  }

  lemma EntryNext(l: nat, pfx: nat, i: nat)
    ensures EntryBase(l, pfx, i + 1) == EntryBase(l, pfx, i) + Span(l)
  {}

  /** An address inside a level block is the start of its entry plus its offset. */
  lemma Locate(l: nat, pfx: nat, a: nat)
    requires l < LEVELS && a < BlockSpan(l)
    ensures EntryBase(l, pfx, IndexAt(l, a)) + OffsetAt(l, a) == pfx + a
  {
    assert BlockSpan(l) == Span(l) * ENTRIES;
    hide Span, BlockSpan;
    DivMod(a, Span(l));
    var q := a / Span(l);
    if q >= ENTRIES {
      MulLe(Span(l), ENTRIES, q);
    }
    DivModUnique(q, ENTRIES, 0, q);
    assert Span(l) * q == q * Span(l);
  }

  /** Level blocks start at multiples of their span, so two of one level that share an address
      start at the same place. */
  lemma SameCell(l: nat, p: nat, q: nat, a: nat)
    requires p % BlockSpan(l) == 0 && q % BlockSpan(l) == 0
    requires p <= a < p + BlockSpan(l) && q <= a < q + BlockSpan(l)
    ensures p == q
  {
    hide BlockSpan;
    InCell(a, BlockSpan(l), p);
    InCell(a, BlockSpan(l), q);
  }

  lemma BlockOfSpans(l: nat, p: nat)
    requires l < LEVELS && p % BlockSpan(l) == 0
    ensures p % Span(l) == 0
  {
    assert BlockSpan(l) == Span(l) * ENTRIES;
    hide BlockSpan, Span;
    FactorDivides(p, Span(l), ENTRIES);
  }

  lemma EntryAligned(l: nat, pfx: nat, i: nat)
    requires l < 3 && pfx % BlockSpan(l) == 0
    ensures EntryBase(l, pfx, i) % BlockSpan(l + 1) == 0
  {
    NextSpan(l);
    BlockOfSpans(l, pfx);
    hide BlockSpan, Span;
    PlusMultiple(pfx, Span(l), i);
  }

  lemma PageAligned(l: nat, pfx: nat, i: nat)
    requires l < LEVELS && pfx % BlockSpan(l) == 0
    ensures EntryBase(l, pfx, i) % PAGE == 0 && pfx % PAGE == 0 && Span(l) % PAGE == 0
  {
    var k := if l == 0 then 0x800_0000 else if l == 1 then 0x4_0000 else if l == 2 then 0x200 else 1;
    assert Span(l) == PAGE * k && Span(l) % PAGE == 0;
    BlockOfSpans(l, pfx);
    hide BlockSpan, Span;
    PlusMultiple(pfx, Span(l), i);
    FactorDivides(pfx, PAGE, k);
    FactorDivides(pfx + i * Span(l), PAGE, k);
  }
}
