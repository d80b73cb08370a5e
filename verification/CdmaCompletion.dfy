/** The completion ring of a JFC: hardware writes entries with an owner bit that flips on every lap, the
    driver polls them and records how far it has come. */
module CdmaCompletion {
  import opened Arith
  import opened Basics
  import opened CdmaSizing
  import opened CdmaSendRing

  /** How an entry parses: a completion, the end of a flush, or an entry that cannot be parsed. */
  datatype Kind = Good | FlushDone | Bad

  datatype Event = Event(kind: Kind, data: nat)

  datatype Cqe = Cqe(owner: nat, ev: Event)

  datatype Poll = PollOk | PollEmpty | PollErr

  /** Lap parity of a position. */
  function Lap(x: nat, cnt: nat): (r: nat)
    requires cnt > 0
    ensures r <= 1
  {
    x / cnt % 2
  }

  /** Before the first lap every owner bit is 0; an entry written at position `x` has the opposite of the
      parity of its lap. */
  ghost predicate RingHolds(buf: seq<Cqe>, produced: seq<Event>) {
    && |buf| > 0
    && (forall x :: 0 <= x < |produced| && x + |buf| >= |produced| ==>
          buf[x % |buf|].ev == produced[x] && buf[x % |buf|].owner == 1 - Lap(x, |buf|))
    && (forall j :: |produced| <= j < |buf| ==> buf[j].owner == 0)
  }

  lemma LapNext(x: nat, cnt: nat)
    requires cnt > 0
    ensures Lap(x + cnt, cnt) == 1 - Lap(x, cnt) && (x + cnt) % cnt == x % cnt
  {
    AddMultiple(x, cnt, 1);
    assert cnt * 1 == cnt;
  }

  lemma SmallLap(x: nat, cnt: nat)
    requires x < cnt
    ensures Lap(x, cnt) == 0 && x % cnt == x
  {
    DivModUnique(x, cnt, 0, x);
  }

  /** The owner bit at position `c` shows a new entry exactly if one has been written there. */
  lemma OwnerShowsNew(buf: seq<Cqe>, produced: seq<Event>, c: nat)
    requires RingHolds(buf, produced) && c <= |produced| <= c + |buf|
    ensures buf[c % |buf|].owner != Lap(c, |buf|) <==> c < |produced|
    ensures c < |produced| ==> buf[c % |buf|].ev == produced[c]
  {
    var cnt := |buf|;
    hide Lap;
    if c < |produced| {
      assert buf[c % cnt].owner == 1 - Lap(c, cnt);
    } else if c >= cnt {
      LapNext(c - cnt, cnt);
      assert buf[(c - cnt) % cnt].owner == 1 - Lap(c - cnt, cnt);
    } else {
      SmallLap(c, cnt);
    }
  }

  /** Writing the next entry keeps the ring in order. */
  lemma ProduceHolds(buf: seq<Cqe>, produced: seq<Event>, ev: Event)
    requires RingHolds(buf, produced)
    ensures var w := |produced|; var cnt := |buf|; RingHolds(buf[w % cnt := Cqe(1 - Lap(w, cnt), ev)], produced + [ev])
  {
    hide Lap;
    var w, cnt := |produced|, |buf|;
    var b' := buf[w % cnt := Cqe(1 - Lap(w, cnt), ev)];
    forall x | 0 <= x < w && x + cnt >= w + 1 ensures b'[x % cnt] == buf[x % cnt] {
      SlotsDiffer(x, w, cnt);
    }
    if w < cnt {
      SmallLap(w, cnt);
    }
  }

  /** `got` are the entries from position `from` on, and all of them are completions. */
  predicate Taken(produced: seq<Event>, from: nat, got: seq<Event>) {
    && from + |got| <= |produced| && got == produced[from..from + |got|]
    && forall i :: 0 <= i < |got| ==> got[i].kind == Good
  }

  lemma TakenLonger(p: seq<Event>, p': seq<Event>, from: nat, got: seq<Event>)
    requires Taken(p, from, got) && p <= p'
    ensures Taken(p', from, got)
  {
    assert p'[from..from + |got|] == p[from..from + |got|];
  }

  lemma TakeNext(p: seq<Event>, from: nat, got: seq<Event>, ev: Event)
    requires Taken(p, from, got) && from + |got| < |p| && ev == p[from + |got|] && ev.kind == Good
    ensures Taken(p, from, got + [ev])
  {}

  class CompletionRing {
    const k: nat
    const cnt: nat                   // entry_cnt
    const bits: nat                  // width of the recorded index
    const buf: array<Cqe>
    var ci: nat
    var record: nat                  // db_record
    ghost var produced: seq<Event>   // what the hardware has written
    ghost var polled: nat            // how many of them were taken
    var written: nat                 // entries written, and entries known to be taken: hardware's own
    var recorded: nat

    ghost predicate Valid()
      reads this, buf
    {
      && k < bits < 32 && cnt == Pow2(k) && buf.Length == cnt
      && ci == polled % U32 && record == recorded % Pow2(bits)
      && recorded <= polled <= |produced| <= recorded + cnt && written == |produced|
      && RingHolds(buf[..], produced)
    }

    constructor (order: nat, width: nat)
      requires order < width < 32
      ensures Valid() && fresh(buf) && produced == [] && polled == 0
    {
      k, cnt, bits := order, Pow2(order), width;
      buf := new Cqe[Pow2(order)](_ => Cqe(0, Event(Bad, 0)));
      ci, record := 0, 0;
      written, recorded := 0, 0;
      produced, polled := [], 0;
    }

    /** The hardware writes the next entry, if the recorded index leaves room for it. */
    method Produce(ev: Event) returns (ok: bool)
      requires Valid()
      modifies buf, this`produced, this`written
      ensures Valid() && produced == if ok then old(produced) + [ev] else old(produced)
      ensures ok <==> |old(produced)| < recorded + cnt
    {
      ok := written < recorded + cnt;
      if ok {
        hide Pow2;
        ProduceHolds(buf[..], produced, ev);
        ghost var b := buf[..];
        buf[written % cnt] := Cqe(1 - Lap(written, cnt), ev);
        assert buf[..] == b[written % cnt := Cqe(1 - Lap(written, cnt), ev)];
        hide RingHolds;
        produced, written := produced + [ev], written + 1;
      }
    }

    /** Any number of entries may arrive between two steps of the driver. */
    method Hardware()
      requires Valid()
      modifies buf, this`produced, this`written
      ensures Valid() && old(produced) <= produced
    {
      var more: bool := *;
      while more && written < recorded + cnt
        invariant Valid() && old(produced) <= produced
        decreases recorded + cnt - written
      {
        var ev: Event := *;
        ghost var was := produced;
        var ok := Produce(ev);
        assert was <= produced;
        more := *;
      }
    }

    /** cdma_get_next_cqe and cdma_poll_one: the next entry in order of production, if there is one. */
    method PollOne() returns (r: Poll, ev: Event)
      requires Valid()
      modifies this`ci, this`polled
      ensures Valid()
      ensures polled == if old(polled) < |produced| then old(polled) + 1 else old(polled)
      ensures old(polled) < |produced| ==> ev == produced[old(polled)]
      ensures r == PollOk <==> old(polled) < |produced| && ev.kind == Good
      ensures r == PollErr <==> old(polled) < |produced| && ev.kind == Bad
    {
      SlotOf(polled, k);
      OwnerShowsNew(buf[..], produced, polled);
      hide Pow2, RingHolds;
      var cqe := buf[ci % cnt];
      ev := cqe.ev;
      if cqe.owner == ci / cnt % 2 {
        return PollEmpty, ev;
      }
      WrapAdd(polled, 1);
      ci := (ci + 1) % U32;
      polled := polled + 1;
      r := match ev.kind case Good => PollOk case FlushDone => PollEmpty case Bad => PollErr;
    }

    /** cdma_poll_jfc: entries are taken in the order they were produced, each once; all that are reported
        are completions; it stops early only at an entry that is none or when there is no entry left; the
        record moves only up to what was taken. */
    method PollJfc(max: nat) returns (n: nat, err: bool, got: seq<Event>)
      requires Valid()
      modifies this, buf
      ensures Valid() && old(produced) <= produced && n == |got| <= max
      ensures old(polled) + n <= polled <= old(polled) + n + 1 && polled <= |produced|
      ensures Taken(produced, old(polled), got)
      ensures polled > old(polled) + n ==>
                produced[polled - 1].kind != Good && (err <==> produced[polled - 1].kind == Bad)
      ensures n < max ==> polled > old(polled) + n || polled == |produced|
      ensures (err ==> polled > old(polled) + n) && recorded == if n > 0 then polled else old(recorded)
    {
      hide Pow2, RingHolds, Lap;
      n, err, got := 0, false, [];
      ghost var start, first := polled, produced;
      assert Taken(produced, start, got);
      hide Taken;
      while n < max
        invariant Valid() && first <= produced && n == |got| <= max && !err && recorded == old(recorded)
        invariant polled == start + n
        invariant Taken(produced, start, got)
      {
        ghost var was := produced;
        Hardware();
        TakenLonger(was, produced, start, got);
        var r, ev := PollOne();
        if r != PollOk {
          err := r == PollErr;
          break;
        }
        TakeNext(produced, start, got, ev);
        got := got + [ev];
        n := n + 1;
      }
      if n > 0 {
        Record();
      }
    }

    /** The doorbell record holds the low bits of the consumer index; from them the hardware tells how far
        the driver has come. */
    method Record()
      requires Valid()
      modifies this`record, this`recorded
      ensures Valid() && recorded == polled
    {
      SlotOf(polled, bits);
      BitsEnough(k, bits);
      ModDistance(recorded, polled, Pow2(bits));
      hide RingHolds, Pow2;
      var next := ci % Pow2(bits);
      recorded := recorded + (next + Pow2(bits) - record) % Pow2(bits);
      record := next;
    }
  }

  lemma BitsEnough(k: nat, bits: nat)
    requires k < bits
    ensures Pow2(k) < Pow2(bits)
  {
    Pow2Monotone(k + 1, bits);
  }

  lemma ModDistance(a: nat, b: nat, m: nat)
    requires m > 0 && a <= b < a + m
    ensures (b % m + m - a % m) % m == b - a
  {
    DivMod(a, m);
    DivMod(b, m);
    var qa, qb := a / m, b / m;
    assert m * (qa + 1) == m * qa + m;
    if qb > qa + 1 {
      MulLt(m, qa + 1, qb);
    } else if qb < qa {
      MulLt(m, qb, qa);
    } else if qb == qa {
      DivModUnique(b - a + m, m, 1, b - a);
    } else {
      assert m * qb == m * qa + m;
      DivModUnique(b - a, m, 0, b - a);
    }
  }
}
