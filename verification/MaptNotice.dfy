/** Invalidations: the queue of at most 12, and which changes of the table must be in it.

    The hardware caches nodes. A node that leads to a next level may be changed under it in two ways: an
    unused own range is filled again, or the next level goes (and the node with it, if it was unused). Either
    change is announced, in the form that the node had before. */
module MaptNotice {
  import opened Basics
  import opened MaptModel
  import opened MaptInv
  import opened MaptUpdates
  import opened MaptBlocks
  import opened MaptSteps
  import opened MaptExt
  import opened MaptFill
  import opened MaptClear
  import opened MaptToken

  const GATHER_MAX: nat := 12

  /** The two commands: by address range, and by next level. */
  datatype Plbi = OsVa(va: nat, size: nat) | OsN(index: nat, offset: nat)

  /** The invalidation that a change of node `(id, i)` calls for: its own range, or for an unused node
      its next level or the first page of its span. */
  function Notice(tb: Table, id: nat, i: nat): Plbi {
    var n := N(tb, id, i);
    if InUse(tb.fb, n) then OsVa(Start(tb, id, i) + n.base, if n.base <= n.limit then n.limit - n.base + 1 else 0)
    else if tb.fb then OsN(n.nextIndex, n.nextOffset)
    else OsVa(Start(tb, id, i), PAGE)
  }

  /** A node that leads on and does not belong to the segment worked on. */
  predicate Cached(tb: Table, name: nat, id: nat, i: nat) {
    IsNode(tb, id, i) && Leading(N(tb, id, i)) && !Own(tb, id, i, name)
  }

  predicate Same(tb: Table, tb': Table, id: nat, i: nat) {
    IsNode(tb', id, i) && N(tb', id, i) == N(tb, id, i) && Start(tb', id, i) == Start(tb, id, i)
  }

  /** Every such node, with the possible exception of one, is as before or announced. */
  ghost predicate Told(tb: Table, tb': Table, name: nat, g: seq<Plbi>, but: Option<(nat, nat)>) {
    && tb'.fb == tb.fb
    && (|g| < GATHER_MAX ==>
          forall id, i :: Cached(tb, name, id, i) && but != Some((id, i)) ==>
            Same(tb, tb', id, i) || Notice(tb, id, i) in g)
  }

  lemma ToldSame(tb: Table, name: nat, g: seq<Plbi>, but: Option<(nat, nat)>)
    ensures Told(tb, tb, name, g, but)
  {
    hide N, Start, InUse;
  }

  /** A node that is as before is cached as before, and calls for the same. */
  lemma SameNotice(tb: Table, t: Table, name: nat, id: nat, i: nat)
    requires t.fb == tb.fb && Cached(tb, name, id, i) && Same(tb, t, id, i)
    ensures Cached(t, name, id, i) && Notice(t, id, i) == Notice(tb, id, i)
  {
    hide N, Start, InUse;
  }

  /** One change after another, the first with the exception `(id, i)` which is as before or announced in the end. */
  lemma ToldTrans(tb: Table, t: Table, tb': Table, name: nat, g: seq<Plbi>, g': seq<Plbi>, x: Option<(nat, nat)>,
                  but: Option<(nat, nat)>)
    requires Told(tb, t, name, g, x) && Told(t, tb', name, g', but) && g <= g'
    requires || x == but
             || (x.Some? && (Same(tb, tb', x.value.0, x.value.1) || |g'| >= GATHER_MAX
                             || Notice(tb, x.value.0, x.value.1) in g'))
    ensures Told(tb, tb', name, g', but)
  {
    hide N, Start, InUse, Notice, Cached, Same;
    if |g'| < GATHER_MAX {
      forall id, i | Cached(tb, name, id, i) && but != Some((id, i))
        ensures Same(tb, tb', id, i) || Notice(tb, id, i) in g'
      {
        if x != Some((id, i)) {
          if Same(tb, t, id, i) {
            SameNotice(tb, t, name, id, i);
            SameTrans(tb, t, tb', id, i);
          } else {
            assert Notice(tb, id, i) in g;
          }
        }
      }
    }
  }

  lemma ToldBut(tb: Table, tb': Table, name: nat, g: seq<Plbi>, but: Option<(nat, nat)>)
    requires Told(tb, tb', name, g, None)
    ensures Told(tb, tb', name, g, but)
  {
    hide Notice, Cached, Same;
  }

  lemma SameTrans(tb: Table, t: Table, tb': Table, id: nat, i: nat)
    requires Same(tb, t, id, i)
    ensures Same(t, tb', id, i) ==> Same(tb, tb', id, i)
  {
    hide N, Start;
  }

  /** Replacing one node: it leads nowhere, or it belongs to the segment, or it is announced. */
  lemma ToldPut(tb: Table, name: nat, id: nat, i: nat, n: Node, g: seq<Plbi>, but: Option<(nat, nat)>)
    requires Shape(tb) && IsNode(tb, id, i)
    requires Cached(tb, name, id, i) ==> |g| >= GATHER_MAX || Notice(tb, id, i) in g
    ensures Told(tb, Put(tb, id, i, n), name, g, but)
  {
    hide HasMem, NodesOf, Shape, InUse, EntryBase;
    PutGet(tb, id, i, n);
    hide N, Put, Notice;
  }

  lemma OwnTold(tb: Table, name: nat, id: nat, i: nat, n: Node, g: seq<Plbi>, but: Option<(nat, nat)>)
    requires Shape(tb) && Own(tb, id, i, name)
    ensures Told(tb, Put(tb, id, i, n), name, g, but)
  {
    hide N, InUse, Shape, Put, Told, Notice;
    ToldPut(tb, name, id, i, n, g, but);
  }

  lemma ToldMore(tb: Table, tb': Table, name: nat, g: seq<Plbi>, g': seq<Plbi>, but: Option<(nat, nat)>)
    requires Told(tb, tb', name, g, but) && g <= g'
    ensures Told(tb, tb', name, g', but)
  {
    hide Notice, Cached, Same;
  }

  lemma ToldAdd(tb: Table, name: nat, id: nat, i: nat, c: nat, g: seq<Plbi>, but: Option<(nat, nat)>)
    requires CanAdd(tb, id, i, c)
    ensures Told(tb, AddChild(tb, id, i, c), name, g, but)
  {
    hide HasMem, NodesOf, Shape, InUse, EntryBase, Links, Accounts;
    AddGet(tb, id, i, c);
    hide N, AddChild, Notice;
  }

  lemma ToldDrop(tb: Table, name: nat, id: nat, g: seq<Plbi>)
    requires CanDrop(tb, id)
    ensures Told(tb, DropBlock(tb, id), name, g, Some(tb.up[id]))
  {
    hide HasMem, NodesOf, Shape, InUse, EntryBase, Links, Accounts;
    DropGet(tb, id);
    hide N, DropBlock, Notice;
    var (p, j) := tb.up[id];
    forall jd, k | Cached(tb, name, jd, k) && Some((p, j)) != Some((jd, k)) ensures Same(tb, DropBlock(tb, id), jd, k) {
      assert jd == id ==> N(tb, jd, k) == ZERO;
    }
  }

  /** Wiping a node changes no node that leads on but the one above. */
  lemma ToldWipe(tb: Table, name: nat, id: nat, i: nat, hole: Option<(nat, nat)>, g: seq<Plbi>, pre: Option<(nat, nat)>)
    requires CanWipe(tb, id, i, hole) && (pre.None? <==> id == 0)
    requires (pre.Some? ==> id in tb.up && tb.up[id] == pre.value)
    ensures Told(tb, Wiped(tb, id, i), name, g, pre)
  {
    hide HasMem, NodesOf, InUse, EntryBase, Links, Accounts, Told, Count, CountValid, DropBlock, Put, Notice, Used,
         NonEmpty;
    assert !Cached(tb, name, id, i);
    ToldPut(tb, name, id, i, ZERO, g, pre);
    WipeFirst(tb, id, i, hole);
    PutGet(tb, id, i, ZERO);
    var t := Put(tb, id, i, ZERO);
    if Count(t, id) == 0 && id != 0 {
      EmptyBlock(t, id);
      ToldDrop(t, name, id, g);
      ToldTrans(tb, t, DropBlock(t, id), name, g, g, pre, pre);
    }
  }

  // ---------------------------------------------------------------- in the walks

  /** Filling the node at which the walk stands. */
  lemma HeadTold(tb: Table, live: Live, s: Seg, level: nat, id: nat, i: nat, lo: nat, hi: nat, bare: Option<nat>,
                 t0: Table, lvl: nat, flag: bool,
                 n: Node, g: seq<Plbi>)
    requires HeadPre(tb, live, s, level, id, i, lo, hi, bare, t0, lvl, flag)
    requires !N(tb, id, i).valid || |g| >= GATHER_MAX || Notice(tb, id, i) in g
    ensures Told(tb, Put(tb, id, i, n), s.lo, g, None)
  {
    hide N, InUse, Notice, Put, Told, Shape, Links, Accounts, Used, NonEmpty, Pieces, Highest;
    ToldPut(tb, s.lo, id, i, n, g, None);
  }

  lemma EntryTold(tb: Table, live: Live, s: Seg, level: nat, id: nat, i: nat, lo: nat, hi: nat, bare: Option<nat>,
                  t0: Table, lvl: nat, flag: bool,
                  n: Node, g: seq<Plbi>)
    requires EntryPre(tb, live, s, level, id, i, lo, hi, bare, t0, lvl, flag) && !N(tb, id, i).valid
    ensures Told(tb, Put(tb, id, i, n), s.lo, g, None)
  {
    hide N, InUse, Notice, Put, Told, Shape, Links, Accounts, Used, NonEmpty, Pieces, Highest;
    ToldPut(tb, s.lo, id, i, n, g, None);
  }

  /** A node that still leads on after its next level was cleared in part is as before. */
  lemma ReturnSame(tb: Table, tb': Table, live: Live, s: Seg, id: nat, i: nat, end: nat, f: nat, st: (nat, nat),
                   t0: Option<Table>, ok: bool)
    requires Structure(tb, None, None) && IsNode(tb, id, i) && Leading(N(tb, id, i))
    requires ClearPost(tb, tb', Lead(tb, Some((id, i))), live, s, end, f, st, t0, ok)
    ensures !N(tb', id, i).leaf ==> Same(tb, tb', id, i)
  {
    hide N, InUse, Structure, ClearState, KeepsOther, SameAbove, EntryBase, Next;
    ClearBack(tb, tb', live, s, id, i, end, f, st, t0, ok);
  }

  /** Token updates change pieces of the segment only. */
  lemma TokTold(t0: Table, tb: Table, name: nat, op: TokenOp, a: nat, g: seq<Plbi>)
    requires TokState(t0, tb, name, op, a)
    ensures Told(t0, tb, name, g, None)
  {
    hide N, InUse, Structure, EntryBase, Notice, NewNode;
  }
}
