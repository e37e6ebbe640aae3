/** Host index arithmetic: from block tables and scheduled positions to the physical
    cache slots a forward pass writes. */
module Slots {
  import opened Arith
  import opened Types
  import opened Pools
  import opened Allocator
  import opened Queues
  import opened States
  import opened Truth

  /** The slot that holds position p of a table. */
  function SlotOf(table: seq<nat>, bs: nat, p: nat): nat
    requires bs >= 1 && p / bs < |table|
  {
    table[p / bs] * bs + p % bs
  }

  /** Position p of the table is stored in that slot. */
  predicate Maps(table: seq<nat>, bs: nat, p: int, slot: int) {
    bs >= 1 && p >= 0 && p / bs < |table| && slot == SlotOf(table, bs, p)
  }

  /** Inside one block, consecutive slots are consecutive positions. */
  lemma InBlock(table: seq<nat>, bs: nat, b: nat, p: nat)
    requires bs >= 1 && b < |table| && b * bs <= p < b * bs + bs
    ensures Maps(table, bs, p, table[b] * bs + (p - b * bs))
  {
    assert (b + 1) * bs == b * bs + bs;
    DivIs(p, bs, b);
    DivBounds(p, bs);
  }

  method Span(from: nat, to: nat) returns (r: seq<nat>)
    requires from <= to
    ensures |r| == to - from && forall i :: 0 <= i < |r| ==> r[i] == from + i
  {
    r := seq(to - from, i requires i >= 0 => from + i);
  }

  /** The pointwise map over the positions start..start + |slots|. */
  ghost predicate SlotsAre(slots: seq<nat>, table: seq<nat>, bs: nat, start: nat) {
    forall i :: 0 <= i < |slots| ==> Maps(table, bs, start + i, slots[i])
  }

  /** The slots of one scheduled row, block range by block range: the first block may
      start inside, the last may end inside. */
  method RaggedSlots(table: seq<nat>, bs: nat, start: nat, end: nat) returns (slots: seq<nat>)
    requires bs >= 1 && start <= end && CeilDiv(end, bs) <= |table|
    ensures table != [] ==> |slots| == end - start && SlotsAre(slots, table, bs, start)
    ensures table == [] ==> slots == []
  {
    hide SlotsAre, Maps, CeilDiv, Done;
    slots := [];
    EmptySlots(table, bs, start);
    if table == [] { return; }
    var first, last := start / bs, CeilDiv(end, bs);
    RangeBounds(start, end, bs);
    var i := first;
    while i < last
      invariant first <= i <= last
      invariant |slots| == Done(start, end, bs, first, last, i) - start && SlotsAre(slots, table, bs, start)
    {
      BlockBounds(start, end, bs, first, last, i);
      ghost var p, q := Done(start, end, bs, first, last, i), Done(start, end, bs, first, last, i + 1);
      var slotStart := table[i] * bs;
      if i == first { slotStart := slotStart + start % bs; }
      var slotEnd := if i != last - 1 then table[i] * bs + bs else table[i] * bs + end - i * bs;
      var more := Span(slotStart, slotEnd);
      SlotsGrow(slots, more, table, bs, start, p, q, i);
      slots := slots + more;
      i := i + 1;
    }
  }

  lemma EmptySlots(table: seq<nat>, bs: nat, start: nat)
    ensures SlotsAre([], table, bs, start)
  {
  }

  /** Positions handled before block i of the range. */
  ghost function Done(start: nat, end: nat, bs: nat, first: nat, last: nat, i: nat): nat {
    if i == last then end else if i == first then start else i * bs
  }

  lemma RangeBounds(start: nat, end: nat, bs: nat)
    requires bs >= 1 && start <= end
    ensures var first, last := start / bs, CeilDiv(end, bs);
      first <= last && Done(start, end, bs, first, last, first) == start && Done(start, end, bs, first, last, last) == end
  {
    CeilBounds(end, bs);
    DivBounds(start, bs);
    if start / bs >= CeilDiv(end, bs) { MulMono(CeilDiv(end, bs), start / bs, bs); }
    if start / bs > CeilDiv(end, bs) { MulStrict(CeilDiv(end, bs), start / bs, bs); }
  }

  /** One block of the range, in positions. */
  lemma BlockBounds(start: nat, end: nat, bs: nat, first: nat, last: nat, i: nat)
    requires bs >= 1 && start <= end && first == start / bs && last == CeilDiv(end, bs) && first <= i < last
    ensures var p, q := Done(start, end, bs, first, last, i), Done(start, end, bs, first, last, i + 1);
      && start <= p <= q <= end && i * bs <= p && q <= i * bs + bs
      && p - i * bs == (if i == first then start % bs else 0)
      && q - i * bs == (if i != last - 1 then bs else end - i * bs)
  {
    DivBounds(start, bs);
    CeilBounds(end, bs);
    assert (i + 1) * bs == i * bs + bs;
    MulMono(first, i, bs);
    MulMono(i + 1, last, bs);
    if i + 1 < last { MulStrict(i + 1, last, bs); }
    if first < i { MulStrict(first, i, bs); }
    assert (last - 1) * bs == last * bs - bs;
    MulMono(i, last - 1, bs);
  }

  lemma SlotsGrow(slots: seq<nat>, more: seq<nat>, table: seq<nat>, bs: nat, start: nat, p: nat, q: nat, b: nat)
    requires start <= p <= q && |slots| == p - start && SlotsAre(slots, table, bs, start)
    requires bs >= 1 && b < |table| && b * bs <= p && q <= b * bs + bs
    requires |more| == q - p && forall i :: 0 <= i < |more| ==> more[i] == table[b] * bs + (p - b * bs) + i
    ensures |slots + more| == q - start && SlotsAre(slots + more, table, bs, start)
  {
    hide Maps;
    forall i | 0 <= i < |slots + more| ensures Maps(table, bs, start + i, (slots + more)[i]) {
      if i >= |slots| {
        InBlock(table, bs, b, start + i);
        assert (slots + more)[i] == more[i - |slots|];
      }
    }
  }

  // ----- a whole batch -----

  /** The packed layout of a ragged batch. */
  datatype Packed = Packed(positions: seq<nat>, slots: seq<nat>, starts: seq<nat>, contexts: seq<nat>, emit: seq<int>)

  predicate RowFits(s: Row, bs: nat)
    requires bs >= 1
  {
    s.table != [] && s.sched >= 1 && s.cached + s.sched <= |s.toks| && CeilDiv(s.cached + s.sched, bs) <= |s.table|
  }

  /** The queries from..to are the row's scheduled positions, one slot each. */
  ghost predicate RowPacked(x: Packed, s: Row, bs: nat, from: nat, to: nat) {
    && from + s.sched == to <= |x.slots| == |x.positions|
    && forall a :: from <= a < to ==>
        x.positions[a] == s.cached + (a - from) && Maps(s.table, bs, s.cached + (a - from), x.slots[a])
  }

  /** A row that reaches its end emits from its last query. */
  function EmitFrom(s: Row, at: int): seq<int> {
    if s.cached + s.sched == |s.toks| then [at + s.sched - 1] else []
  }

  function Emitters(rows: seq<Row>, from: int): seq<int> {
    if rows == [] then [] else EmitFrom(rows[0], from) + Emitters(rows[1..], from + rows[0].sched)
  }

  lemma {:induction false} EmittersAppend(rows: seq<Row>, s: Row, from: int)
    ensures Emitters(rows + [s], from) == Emitters(rows, from) + EmitFrom(s, from + SchedTokens(rows))
  {
    hide EmitFrom;
    if rows == [] {
      assert [] + [s] == [s] && [s][1..] == [];
    } else {
      assert (rows + [s])[1..] == rows[1..] + [s];
      EmittersAppend(rows[1..], s, from + rows[0].sched);
      assert from + rows[0].sched + SchedTokens(rows[1..]) == from + SchedTokens(rows);
    }
  }

  /** The first n rows are packed, back to back. */
  ghost predicate PackedTo(x: Packed, rows: seq<Row>, n: nat, bs: nat)
    requires n <= |rows|
  {
    && |x.starts| == n + 1 && x.starts[0] == 0 && x.starts[n] == |x.slots| == |x.positions| == SchedTokens(rows[..n])
    && (forall i: nat :: i < n ==> RowPacked(x, rows[i], bs, x.starts[i], x.starts[i + 1]))
    && |x.contexts| == n + 1 && x.contexts[0] == 0
    && (forall i: nat :: i < n ==> x.contexts[i + 1] == x.contexts[i] + rows[i].cached + rows[i].sched)
    && x.emit == Emitters(rows[..n], 0)
  }

  ghost predicate Added(x: Packed, y: Packed, s: Row, bs: nat, positions: seq<nat>, slots: seq<nat>) {
    && |x.starts| > 0 && |x.contexts| > 0
    && |positions| == |slots| == s.sched && SlotsAre(slots, s.table, bs, s.cached)
    && (forall j :: 0 <= j < |positions| ==> positions[j] == s.cached + j)
    && y.positions == x.positions + positions && y.slots == x.slots + slots
    && y.starts == x.starts + [x.starts[|x.starts| - 1] + s.sched]
    && y.contexts == x.contexts + [x.contexts[|x.contexts| - 1] + s.cached + s.sched]
    && y.emit == x.emit + EmitFrom(s, x.starts[|x.starts| - 1])
  }

  /** Pack a scheduled batch for one ragged forward pass. */
  method PrepareRagged(rows: seq<Row>, bs: nat) returns (x: Packed)
    requires bs >= 1 && forall i :: 0 <= i < |rows| ==> RowFits(rows[i], bs)
    ensures PackedTo(x, rows, |rows|, bs)
  {
    hide SlotsAre, CeilDiv, Emitters;
    x := Packed([], [], [0], [0], []);
    PackedNone(rows, bs);
    var i := 0;
    while i < |rows|
      invariant i <= |rows| && PackedTo(x, rows, i, bs)
    {
      x := PackRow(x, rows, i, rows[i], bs);
      i := i + 1;
    }
  }

  lemma PackedNone(rows: seq<Row>, bs: nat)
    ensures PackedTo(Packed([], [], [0], [0], []), rows, 0, bs)
  {
  }

  method PackRow(x: Packed, ghost rows: seq<Row>, ghost n: nat, s: Row, bs: nat) returns (y: Packed)
    requires bs >= 1 && n < |rows| && s == rows[n] && RowFits(s, bs) && PackedTo(x, rows, n, bs)
    ensures PackedTo(y, rows, n + 1, bs)
  {
    hide SlotsAre, Emitters, RowPacked;
    var end := s.cached + s.sched;
    var positions := Span(s.cached, end);
    var slots := RaggedSlots(s.table, bs, s.cached, end);
    var at := x.starts[|x.starts| - 1] + s.sched;
    var emit := x.emit;
    if end == |s.toks| { emit := emit + [at - 1]; }
    y := Packed(x.positions + positions, x.slots + slots, x.starts + [at], x.contexts + [x.contexts[|x.contexts| - 1] + end], emit);
    assert Added(x, y, s, bs, positions, slots);
    PackStep(x, y, rows, n, bs, positions, slots);
  }

  lemma PackStep(x: Packed, y: Packed, rows: seq<Row>, n: nat, bs: nat, positions: seq<nat>, slots: seq<nat>)
    requires n < |rows| && PackedTo(x, rows, n, bs) && Added(x, y, rows[n], bs, positions, slots)
    ensures PackedTo(y, rows, n + 1, bs)
  {
    hide Emitters, SchedTokens, RowPacked, SlotsAre;
    var s := rows[n];
    assert rows[..n + 1] == rows[..n] + [s];
    SchedTokensAppend(rows[..n], s);
    EmittersAppend(rows[..n], s, 0);
    forall i: nat | i < n + 1 ensures RowPacked(y, rows[i], bs, y.starts[i], y.starts[i + 1]) {
      if i < n {
        PackKeeps(x, y, rows[i], bs, x.starts[i], x.starts[i + 1]);
      } else {
        PackNew(x, y, s, bs, positions, slots);
      }
    }
  }

  lemma PackKeeps(x: Packed, y: Packed, s: Row, bs: nat, from: nat, to: nat)
    requires RowPacked(x, s, bs, from, to)
    requires x.positions <= y.positions && x.slots <= y.slots && |y.slots| == |y.positions|
    ensures RowPacked(y, s, bs, from, to)
  {
    hide Maps;
  }

  lemma PackNew(x: Packed, y: Packed, s: Row, bs: nat, positions: seq<nat>, slots: seq<nat>)
    requires |x.slots| == |x.positions| && |positions| == |slots| == s.sched && SlotsAre(slots, s.table, bs, s.cached)
    requires forall j :: 0 <= j < |positions| ==> positions[j] == s.cached + j
    requires y.positions == x.positions + positions && y.slots == x.slots + slots
    ensures RowPacked(y, s, bs, |x.slots|, |x.slots| + s.sched)
  {
    hide Maps;
    var from := |x.slots|;
    forall a | from <= a < from + s.sched
      ensures y.positions[a] == s.cached + (a - from) && Maps(s.table, bs, s.cached + (a - from), y.slots[a])
    {
      assert y.slots[a] == slots[a - from] && y.positions[a] == positions[a - from];
    }
  }

  // ----- decode -----

  /** The last-block formula of a decode row. */
  function DecodeSlot(s: Row, bs: nat): int
    requires s.table != []
  {
    s.table[|s.table| - 1] * bs + (|s.toks| - (|s.table| - 1) * bs) - 1
  }

  /** It is the slot of the last token exactly when the table ends with that token's
      block: any longer or shorter table sends the write elsewhere in the layout. */
  lemma DecodeSlotIs(s: Row, bs: nat)
    requires bs >= 1 && |s.toks| >= 1 && |s.table| == CeilDiv(|s.toks|, bs)
    ensures s.table != [] && Maps(s.table, bs, |s.toks| - 1, DecodeSlot(s, bs))
  {
    var p := |s.toks| - 1;
    HighestPosition(p, bs);
    DivBounds(p, bs);
  }

  method PrepareDecode(rows: seq<Row>, bs: nat) returns (positions: seq<nat>, slots: seq<nat>, contexts: seq<nat>)
    requires bs >= 1 && forall i :: 0 <= i < |rows| ==> |rows[i].toks| >= 1 && |rows[i].table| == CeilDiv(|rows[i].toks|, bs)
    ensures |positions| == |slots| == |contexts| == |rows|
    ensures forall i :: 0 <= i < |rows| ==>
      && positions[i] == |rows[i].toks| - 1 && contexts[i] == |rows[i].toks| && Maps(rows[i].table, bs, positions[i], slots[i])
  {
    positions, slots, contexts := [], [], [];
    var i := 0;
    while i < |rows|
      invariant i <= |rows| && |positions| == |slots| == |contexts| == i
      invariant forall k :: 0 <= k < i ==>
        && positions[k] == |rows[k].toks| - 1 && contexts[k] == |rows[k].toks| && Maps(rows[k].table, bs, positions[k], slots[k])
    {
      var s := rows[i];
      DecodeSlotIs(s, bs);
      var inLast := |s.toks| - (|s.table| - 1) * bs;
      positions := positions + [|s.toks| - 1];
      contexts := contexts + [|s.toks|];
      slots := slots + [s.table[|s.table| - 1] * bs + inLast - 1];
      i := i + 1;
    }
  }

  // ----- write isolation, slot by slot -----

  /** A slot at or past a row's coverage lies in a block nobody else names, that caches
      nothing and is not free. */
  lemma WrittenBlockIsPrivate(c: Config, p: Pool, q: seq<Row>, i: nat, a: nat)
    requires c.Valid() && Isolated(c, p, q) && i < |q| && q[i].cached <= a && a / c.blockSize < |q[i].table|
    ensures var b := q[i].table[a / c.blockSize];
      && b < |p.blocks| && p.blocks[b] == FRESH && b in p.used && b !in p.free
      && (forall h :: h in p.index ==> p.index[h] != b)
      && Owners(q)[b] == 1
  {
    hide Contents, Wf, Owned;
    var s, n := q[i], a / c.blockSize;
    DivMono(s.cached, a, c.blockSize);
    TailBlock(c, p, q, s, n);
    hide Isolated;
    FreshUncached(p, Owners(q), s.table[n]);
  }

  lemma FreshUncached(p: Pool, m: multiset<nat>, b: nat)
    requires Wf(p) && Owned(p, m) && b < |p.blocks| && p.blocks[b] == FRESH
    ensures b in p.used && b !in p.free && forall h :: h in p.index ==> p.index[h] != b
  {
  }

  /** Two writes of one pass never meet: different rows or different positions have
      different slots. */
  lemma WrittenSlotsDiffer(c: Config, p: Pool, q: seq<Row>, i: nat, a: nat, j: nat, b: nat)
    requires c.Valid() && Isolated(c, p, q) && i < |q| && j < |q| && (i != j || a != b)
    requires q[i].cached <= a && a / c.blockSize < |q[i].table|
    requires q[j].cached <= b && b / c.blockSize < |q[j].table|
    ensures SlotOf(q[i].table, c.blockSize, a) != SlotOf(q[j].table, c.blockSize, b)
  {
    var bs := c.blockSize;
    var x, y := q[i].table[a / bs], q[j].table[b / bs];
    WrittenBlockIsPrivate(c, p, q, i, a);
    hide Isolated;
    if x == y {
      assert i == j by {
        if i != j { TwoOwners(q, if i < j then i else j, if i < j then j else i, x); }
      }
      SameBlock(q, i, a, b, bs);
    } else {
      SlotsApart(x, y, a % bs, b % bs, bs);
    }
  }

  lemma SameBlock(q: seq<Row>, i: nat, a: nat, b: nat, bs: nat)
    requires bs >= 1 && i < |q| && a != b && a / bs < |q[i].table| && b / bs < |q[i].table|
    requires Owners(q)[q[i].table[a / bs]] == 1 && q[i].table[a / bs] == q[i].table[b / bs]
    ensures a % bs != b % bs
  {
    hide Owners;
    var t, k, l := q[i].table, a / bs, b / bs;
    DivBounds(a, bs);
    DivBounds(b, bs);
    OwnersAt(q, i);
    if k != l { OccursTwice(t, k, l); }
  }

  lemma SlotsApart(x: nat, y: nat, r: nat, s: nat, bs: nat)
    requires bs >= 1 && r < bs && s < bs && x != y
    ensures x * bs + r != y * bs + s
  {
    if x < y { MulStrict(x, y, bs); } else { MulStrict(y, x, bs); }
  }

}
