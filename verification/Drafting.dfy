/** The draft half of a cycle: catch-up, then one position of every row per proposal step.
    Each slot is written through the row's block table, and together the writes are the
    draft pass and the proposals the protocol speaks of. */
module Drafting {
  import opened Arith
  import opened Types
  import opened Allocator
  import opened Queues
  import opened Scheduling
  import opened Leases
  import opened Truth
  import opened TruthSteps
  import opened TruthBurst
  import opened Transactions
  import opened Protocol
  import opened Writes

  /** The slot of position a, as block and offset. */
  function Slot(bs: nat, table: seq<nat>, a: nat): (nat, nat)
    requires bs >= 1 && a / bs < |table|
  {
    (table[a / bs], a % bs)
  }

  function Write(bs: nat, dkv: Cache, table: seq<nat>, toks: seq<Token>, a: nat): Cache
    requires bs >= 1 && a / bs < |table|
  {
    dkv[Slot(bs, table, a) := Prefix(toks, a + 1)]
  }

  lemma PosOf(bs: nat, a: nat)
    requires bs >= 1
    ensures Pos(bs, a / bs, a % bs) == a && a % bs < bs
  {
    DivBounds(a, bs);
  }

  lemma PosUnique(bs: nat, i: nat, j: nat)
    requires bs >= 1 && j < bs
    ensures Pos(bs, i, j) / bs == i && Pos(bs, i, j) % bs == j
  {
    DivIs(i * bs + j, bs, i);
    DivBounds(i * bs + j, bs);
  }

  lemma WriteAt(bs: nat, dkv: Cache, table: seq<nat>, toks: seq<Token>, a: nat, b: nat, j: nat)
    requires bs >= 1 && a / bs < |table|
    ensures At(Write(bs, dkv, table, toks, a), b, j) ==
      if (b, j) == Slot(bs, table, a) then Prefix(toks, a + 1) else At(dkv, b, j)
  {
  }

  /** No position of the table below n lives in this slot with another value. */
  ghost predicate ClashFree(bs: nat, t: seq<nat>, x: seq<Token>, n: nat, slot: (nat, nat), value: seq<Token>) {
    forall i: nat, j: nat :: i < |t| && j < bs && Pos(bs, i, j) < n && (t[i], j) == slot ==> Prefix(x, Pos(bs, i, j) + 1) == value
  }

  /** Writing the next position extends what a table holds. */
  lemma WriteExtends(bs: nat, dkv: Cache, table: seq<nat>, toks: seq<Token>, a: nat)
    requires bs >= 1 && a / bs < |table| && TrueTo(bs, dkv, table, toks, a)
    requires ClashFree(bs, table, toks, a, Slot(bs, table, a), Prefix(toks, a + 1))
    ensures TrueTo(bs, Write(bs, dkv, table, toks, a), table, toks, a + 1)
  {
    var dkv' := Write(bs, dkv, table, toks, a);
    PosOf(bs, a);
    forall i: nat, j: nat | i < |table| && j < bs && Pos(bs, i, j) < a + 1
      ensures At(dkv', table[i], j) == Prefix(toks, Pos(bs, i, j) + 1)
    {
      PosUnique(bs, i, j);
      WriteAt(bs, dkv, table, toks, a, table[i], j);
    }
  }

  /** A write elsewhere, or of the value already there, changes nothing a table holds. */
  lemma WriteApart(bs: nat, dkv: Cache, table: seq<nat>, toks: seq<Token>, a: nat, t: seq<nat>, x: seq<Token>, n: nat)
    requires bs >= 1 && a / bs < |table| && TrueTo(bs, dkv, t, x, n)
    requires ClashFree(bs, t, x, n, Slot(bs, table, a), Prefix(toks, a + 1))
    ensures TrueTo(bs, Write(bs, dkv, table, toks, a), t, x, n)
  {
    var dkv' := Write(bs, dkv, table, toks, a);
    forall i: nat, j: nat | i < |t| && j < bs && Pos(bs, i, j) < n ensures At(dkv', t[i], j) == Prefix(x, Pos(bs, i, j) + 1) {
      WriteAt(bs, dkv, table, toks, a, t[i], j);
    }
  }

  // ----- catch-up -----

  lemma NotWritableMeans(bs: nat, q: seq<Row>, b: nat, j: nat, r: Row, i: nat)
    requires !Writable(bs, q, b, j) && r in q && i < |r.table| && r.table[i] == b
    ensures Pos(bs, i, j) < r.cached
  {
  }

  /** Rows that share the slot of a covered position agree on what it holds. */
  lemma SharedAgree(c: Config, p: Pool, q: seq<Row>, kv: Cache, dkv: Cache, s: Row, a: nat, r: Row, i: nat, j: nat)
    requires c.Valid() && Isolated(c, p, q) && AllTrue(c, kv, dkv, q) && s in q && r in q
    requires a < s.cached && a / c.blockSize < |s.table|
    requires i < |r.table| && j < c.blockSize && (r.table[i], j) == Slot(c.blockSize, s.table, a)
    ensures Prefix(r.toks, Pos(c.blockSize, i, j) + 1) == Prefix(s.toks, a + 1)
  {
    hide Isolated, Prefix, Pos, At, Writable;
    var bs, k := c.blockSize, a / c.blockSize;
    PosOf(bs, a);
    CoveredNotWritable(c, p, q, s, k, j);
    NotWritableMeans(bs, q, s.table[k], j, r, i);
    assert RowTrue(c, kv, dkv, r) && RowTrue(c, kv, dkv, s);
    assert At(kv, r.table[i], j) == Prefix(r.toks, Pos(bs, i, j) + 1);
    assert At(kv, s.table[k], j) == Prefix(s.toks, Pos(bs, k, j) + 1);
  }

  /** A catch-up write clashes with nothing any row's committed tokens hold. */
  lemma CatchUpClashFree(c: Config, p: Pool, q: seq<Row>, kv: Cache, dkv: Cache, s: Row, a: nat, r: Row, n: nat)
    requires c.Valid() && Isolated(c, p, q) && AllTrue(c, kv, dkv, q) && s in q && r in q
    requires a < s.cached && a / c.blockSize < |s.table|
    ensures ClashFree(c.blockSize, r.table, r.toks, n, Slot(c.blockSize, s.table, a), Prefix(s.toks, a + 1))
  {
    hide Isolated, Prefix, Pos, AllTrue, Slot;
    forall i: nat, j: nat | i < |r.table| && j < c.blockSize && Pos(c.blockSize, i, j) < n && (r.table[i], j) == Slot(c.blockSize, s.table, a)
      ensures Prefix(r.toks, Pos(c.blockSize, i, j) + 1) == Prefix(s.toks, a + 1)
    {
      SharedAgree(c, p, q, kv, dkv, s, a, r, i, j);
    }
  }

  /** A write past a row's coverage clashes with nothing any row of the batch holds. */
  lemma TailClashFree(c: Config, p: Pool, q: seq<Row>, k: nat, a: nat, x: seq<Token>, l: nat, y: seq<Token>, n: nat)
    requires c.Valid() && Isolated(c, p, q) && k < |q| && l < |q|
    requires q[k].cached <= a && a / c.blockSize < |q[k].table| && (k == l ==> n <= a)
    ensures ClashFree(c.blockSize, q[l].table, y, n, Slot(c.blockSize, q[k].table, a), Prefix(x, a + 1))
  {
    hide Prefix, Isolated, Owners;
    var bs, s, r := c.blockSize, q[k], q[l];
    PosOf(bs, a);
    WriteIsTail(s, a / bs, a % bs, bs);
    TailBlock(c, p, q, s, a / bs);
    forall i: nat, j: nat | i < |r.table| && j < bs && Pos(bs, i, j) < n ensures (r.table[i], j) != Slot(bs, s.table, a) {
      if r.table[i] == s.table[a / bs] { TailOnce(q, k, a / bs, l, i); }
    }
  }

  lemma TailOnce(q: seq<Row>, k: nat, m: nat, l: nat, i: nat)
    requires k < |q| && l < |q| && m < |q[k].table| && i < |q[l].table| && q[k].table[m] == q[l].table[i]
    requires Owners(q)[q[k].table[m]] == 1
    ensures k == l && m == i
  {
    OwnersAt(q, k);
    hide Owners;
    var b := q[k].table[m];
    if k != l { TwoOwners(q, if k < l then k else l, if k < l then l else k, b); }
    if m != i { OccursTwice(q[k].table, m, i); }
  }

  // ----- the passes -----

  /** Row l holds the draft entries of its tokens and proposals below its mark. */
  ghost predicate HoldsTo(bs: nat, dkv: Cache, rows: seq<Row>, props: seq<seq<Token>>, marks: seq<nat>) {
    && |props| == |marks| == |rows|
    && forall l :: 0 <= l < |rows| ==> TrueTo(bs, dkv, rows[l].table, rows[l].toks + props[l], marks[l])
  }

  /** What a cycle may assume of its batch: the lease's tables reach the last proposal's
      predecessor, nothing but the last token is uncovered, and no draft coverage
      overclaims. */
  ghost predicate Draftable(c: Config, p: Pool, rows: seq<Row>, others: seq<Row>, kv: Cache, dkv: Cache, k: nat)
    requires c.Valid()
  {
    && Isolated(c, p, rows + others) && AllTrue(c, kv, dkv, rows + others)
    && forall l :: 0 <= l < |rows| ==>
        && rows[l].cached + 1 == |rows[l].toks| && rows[l].draft <= rows[l].cached
        && CeilDiv(|rows[l].toks| + k - 1, c.blockSize) <= |rows[l].table|
  }

  lemma DraftableRow(c: Config, p: Pool, rows: seq<Row>, others: seq<Row>, kv: Cache, dkv: Cache, k: nat, l: nat)
    requires c.Valid() && Draftable(c, p, rows, others, kv, dkv, k) && l < |rows|
    ensures Isolated(c, p, rows + others) && AllTrue(c, kv, dkv, rows + others) && (rows + others)[l] == rows[l]
    ensures rows[l] in rows + others && rows[l].cached + 1 == |rows[l].toks| && rows[l].draft <= rows[l].cached
    ensures forall a: nat :: a < |rows[l].toks| + k - 1 ==> a / c.blockSize < |rows[l].table|
  {
    hide Isolated, AllTrue, CeilDiv;
    var s, bs := rows[l], c.blockSize;
    assert (rows + others)[l] == s;
    forall a: nat | a < |s.toks| + k - 1 ensures a / bs < |s.table| {
      HighestPosition(a, bs);
      CeilMono(a + 1, |s.toks| + k - 1, bs);
    }
  }

  lemma DraftPassSelf(bs: nat, dkv: Cache, q: seq<Row>)
    ensures DraftPass(bs, dkv, dkv, q)
  {
  }

  /** One more write of a draft pass, within coverage or past it. */
  lemma DraftPassWrite(bs: nat, dkv0: Cache, dkv: Cache, q: seq<Row>, s: Row, x: seq<Token>, a: nat)
    requires bs >= 1 && DraftPass(bs, dkv0, dkv, q) && s in q && a / bs < |s.table| && s.draft <= a
    requires a < s.cached ==> Prefix(x, a + 1) == Prefix(s.toks, a + 1)
    ensures DraftPass(bs, dkv0, Write(bs, dkv, s.table, x, a), q)
  {
    var dkv' := Write(bs, dkv, s.table, x, a);
    PosOf(bs, a);
    hide Prefix, Pos, At;
    forall b: nat, j: nat ensures At(dkv', b, j) == At(dkv0, b, j) || (j < bs && Writable(bs, q, b, j)) || (j < bs && CaughtUp(bs, dkv', q, b, j)) {
      WriteAt(bs, dkv, s.table, x, a, b, j);
      if (b, j) == Slot(bs, s.table, a) {
        assert s.table[a / bs] == b && Pos(bs, a / bs, j) == a;
        if a >= s.cached { assert Writable(bs, q, b, j); } else { assert CaughtUp(bs, dkv', q, b, j); }
      } else if At(dkv, b, j) != At(dkv0, b, j) && !(j < bs && Writable(bs, q, b, j)) {
        StillCaughtUp(bs, dkv, dkv', q, b, j);
      }
    }
  }

  lemma StillCaughtUp(bs: nat, dkv: Cache, dkv': Cache, q: seq<Row>, b: nat, j: nat)
    requires CaughtUp(bs, dkv, q, b, j) && At(dkv', b, j) == At(dkv, b, j)
    ensures CaughtUp(bs, dkv', q, b, j)
  {
  }

  /** One catch-up position of row l. */
  lemma CatchUpStep(c: Config, p: Pool, rows: seq<Row>, others: seq<Row>, kv: Cache, dkv0: Cache, dkv: Cache,
                    props: seq<seq<Token>>, marks: seq<nat>, l: nat)
    requires c.Valid() && Draftable(c, p, rows, others, kv, dkv0, 1) && l < |rows|
    requires HoldsTo(c.blockSize, dkv, rows, props, marks) && DraftPass(c.blockSize, dkv0, dkv, rows + others)
    requires (forall m :: 0 <= m < |rows| ==> props[m] == []) && rows[l].draft <= marks[l] < rows[l].cached
    ensures marks[l] / c.blockSize < |rows[l].table|
    ensures var dkv' := Write(c.blockSize, dkv, rows[l].table, rows[l].toks, marks[l]);
      HoldsTo(c.blockSize, dkv', rows, props, marks[l := marks[l] + 1]) && DraftPass(c.blockSize, dkv0, dkv', rows + others)
  {
    hide Isolated, AllTrue, TrueTo, ClashFree, DraftPass, Prefix, CeilDiv, Draftable;
    var bs, q, s, a := c.blockSize, rows + others, rows[l], marks[l];
    DraftableRow(c, p, rows, others, kv, dkv0, 1, l);
    DraftPassWrite(bs, dkv0, dkv, q, s, s.toks, a);
    var dkv' := Write(bs, dkv, s.table, s.toks, a);
    forall m | 0 <= m < |rows| ensures TrueTo(bs, dkv', rows[m].table, rows[m].toks + props[m], marks[l := a + 1][m]) {
      DraftableRow(c, p, rows, others, kv, dkv0, 1, m);
      assert rows[m].toks + props[m] == rows[m].toks;
      CatchUpClashFree(c, p, q, kv, dkv0, s, a, rows[m], marks[m]);
      if m == l { WriteExtends(bs, dkv, s.table, s.toks, a); }
      else { WriteApart(bs, dkv, s.table, s.toks, a, rows[m].table, rows[m].toks, marks[m]); }
    }
  }

  /** One proposal position of row l: it is filled on the committed tokens and the
      proposals before it, and the sampled token joins the proposals. */
  lemma ProposeStep(c: Config, p: Pool, rows: seq<Row>, others: seq<Row>, kv: Cache, dkv0: Cache, dkv: Cache,
                    props: seq<seq<Token>>, marks: seq<nat>, l: nat, k: nat, t: Token)
    requires c.Valid() && Draftable(c, p, rows, others, kv, dkv0, k) && l < |rows|
    requires HoldsTo(c.blockSize, dkv, rows, props, marks) && DraftPass(c.blockSize, dkv0, dkv, rows + others)
    requires marks[l] == rows[l].cached + |props[l]| && |props[l]| < k
    ensures marks[l] / c.blockSize < |rows[l].table|
    ensures var dkv' := Write(c.blockSize, dkv, rows[l].table, rows[l].toks + props[l], marks[l]);
      && HoldsTo(c.blockSize, dkv', rows, props[l := props[l] + [t]], marks[l := marks[l] + 1])
      && DraftPass(c.blockSize, dkv0, dkv', rows + others)
  {
    hide Isolated, AllTrue, TrueTo, ClashFree, DraftPass, Prefix, CeilDiv, Draftable;
    var bs, q, s, a := c.blockSize, rows + others, rows[l], marks[l];
    var x := s.toks + props[l];
    DraftableRow(c, p, rows, others, kv, dkv0, k, l);
    DraftPassWrite(bs, dkv0, dkv, q, s, x, a);
    var dkv' := Write(bs, dkv, s.table, x, a);
    var props' := props[l := props[l] + [t]];
    forall m | 0 <= m < |rows| ensures TrueTo(bs, dkv', rows[m].table, rows[m].toks + props'[m], marks[l := a + 1][m]) {
      DraftableRow(c, p, rows, others, kv, dkv0, k, m);
      TailClashFree(c, p, q, l, a, x, m, rows[m].toks + props[m], marks[m]);
      if m == l {
        WriteExtends(bs, dkv, s.table, x, a);
        OneMore(bs, dkv', s.table, s.toks + props[l], t, a + 1);
        assert s.toks + props[l] + [t] == s.toks + props'[l];
      } else {
        WriteApart(bs, dkv, s.table, x, a, rows[m].table, rows[m].toks + props[m], marks[m]);
      }
    }
  }

  /** Appending a token changes no prefix below it. */
  lemma OneMore(bs: nat, dkv: Cache, table: seq<nat>, x: seq<Token>, t: Token, n: nat)
    requires TrueTo(bs, dkv, table, x, n) && n <= |x|
    ensures TrueTo(bs, dkv, table, x + [t], n)
  {
    assert (x + [t])[..n] == x[..n];
    TruePrefix(bs, dkv, table, x, x + [t], n, n);
  }

  // ----- the loops -----

  /** The passes over one batch. `next` stands for the draft model and its sampler. */
  class Drafter {
    const c: Config
    const next: (Row, seq<Token>) -> Token
    var dkv: Cache

    constructor (c: Config, next: (Row, seq<Token>) -> Token, dkv: Cache)
      ensures this.c == c && this.next == next && this.dkv == dkv
    {
      this.c, this.next, this.dkv := c, next, dkv;
    }

    /** Recompute every committed position the draft cache lacks. */
    method CatchUp(rows: seq<Row>, ghost p: Pool, ghost others: seq<Row>, ghost kv: Cache, ghost k: nat) returns (ghost marks: seq<nat>)
      requires c.Valid() && k >= 1 && Draftable(c, p, rows, others, kv, dkv, k)
      modifies this
      ensures DraftPass(c.blockSize, old(dkv), dkv, rows + others)
      ensures HoldsTo(c.blockSize, dkv, rows, seq(|rows|, i => []), marks)
      ensures |marks| == |rows| && forall l :: 0 <= l < |rows| ==> marks[l] == rows[l].cached
    {
      hide Draftable, HoldsTo, DraftPass;
      ghost var dkv0 := dkv;
      DraftableLess(c, p, rows, others, kv, dkv0, k);
      marks := seq(|rows|, i requires 0 <= i < |rows| => rows[i].draft);
      CatchUpStart(c, p, rows, others, kv, dkv0);
      var i := 0;
      while i < |rows|
        invariant i <= |rows| && |marks| == |rows| && DraftPass(c.blockSize, dkv0, dkv, rows + others)
        invariant HoldsTo(c.blockSize, dkv, rows, seq(|rows|, i => []), marks)
        invariant forall l :: 0 <= l < i ==> marks[l] == rows[l].cached
        invariant forall l :: i <= l < |rows| ==> marks[l] == rows[l].draft
      {
        marks := CatchUpRow(rows, i, p, others, kv, dkv0, marks);
        i := i + 1;
      }
    }

    method CatchUpRow(rows: seq<Row>, i: nat, ghost p: Pool, ghost others: seq<Row>, ghost kv: Cache, ghost dkv0: Cache,
                      ghost marks: seq<nat>)
      returns (ghost marks': seq<nat>)
      requires c.Valid() && Draftable(c, p, rows, others, kv, dkv0, 1) && i < |rows| == |marks| && marks[i] == rows[i].draft
      requires HoldsTo(c.blockSize, dkv, rows, seq(|rows|, i => []), marks) && DraftPass(c.blockSize, dkv0, dkv, rows + others)
      modifies this
      ensures HoldsTo(c.blockSize, dkv, rows, seq(|rows|, i => []), marks') && DraftPass(c.blockSize, dkv0, dkv, rows + others)
      ensures marks' == marks[i := rows[i].cached]
    {
      hide Draftable, HoldsTo, DraftPass;
      DraftableRow(c, p, rows, others, kv, dkv0, 1, i);
      var s := rows[i];
      marks' := marks;
      var position := s.draft;
      while position < s.cached
        invariant s.draft <= position <= s.cached && |marks'| == |rows| && marks'[i] == position && marks' == marks[i := position]
        invariant HoldsTo(c.blockSize, dkv, rows, seq(|rows|, i => []), marks') && DraftPass(c.blockSize, dkv0, dkv, rows + others)
      {
        CatchUpStep(c, p, rows, others, kv, dkv0, dkv, seq(|rows|, i => []), marks', i);
        dkv := Write(c.blockSize, dkv, s.table, s.toks, position);
        marks' := marks'[i := position + 1];
        position := position + 1;
      }
    }

    /** Catch-up and k proposal steps. Step n fills, for every row, the position n past its
        last covered one. Afterwards the draft cache holds each row's committed tokens and
        all its proposals but the last, and the writes are a legal draft pass. */
    method Propose(rows: seq<Row>, k: nat, ghost p: Pool, ghost others: seq<Row>, ghost kv: Cache) returns (props: seq<seq<Token>>)
      requires c.Valid() && k >= 1 && Draftable(c, p, rows, others, kv, dkv, k)
      modifies this
      ensures DraftPass(c.blockSize, old(dkv), dkv, rows + others)
      ensures Proposed(c, dkv, rows, props, k)
    {
      hide Draftable, HoldsTo, DraftPass, Proposed;
      ghost var dkv0 := dkv;
      ghost var marks := CatchUp(rows, p, others, kv, k);
      props := seq(|rows|, i => []);
      var step := 0;
      while step < k
        invariant step <= k && |marks| == |props| == |rows| && DraftPass(c.blockSize, dkv0, dkv, rows + others)
        invariant HoldsTo(c.blockSize, dkv, rows, props, marks)
        invariant forall l :: 0 <= l < |rows| ==> marks[l] == rows[l].cached + step && |props[l]| == step
      {
        props, marks := ProposeRound(rows, k, step, props, p, others, kv, dkv0, marks);
        step := step + 1;
      }
      ProposedAt(c, p, rows, others, kv, dkv0, dkv, props, marks, k);
    }

    method ProposeRound(rows: seq<Row>, ghost k: nat, ghost step: nat, props: seq<seq<Token>>, ghost p: Pool, ghost others: seq<Row>,
                        ghost kv: Cache, ghost dkv0: Cache, ghost marks: seq<nat>)
      returns (props': seq<seq<Token>>, ghost marks': seq<nat>)
      requires c.Valid() && Draftable(c, p, rows, others, kv, dkv0, k) && step < k && |marks| == |props| == |rows|
      requires HoldsTo(c.blockSize, dkv, rows, props, marks) && DraftPass(c.blockSize, dkv0, dkv, rows + others)
      requires forall l :: 0 <= l < |rows| ==> marks[l] == rows[l].cached + step && |props[l]| == step
      modifies this
      ensures |marks'| == |props'| == |rows|
      ensures HoldsTo(c.blockSize, dkv, rows, props', marks') && DraftPass(c.blockSize, dkv0, dkv, rows + others)
      ensures forall l :: 0 <= l < |rows| ==> marks'[l] == rows[l].cached + step + 1 && |props'[l]| == step + 1
    {
      hide Draftable, HoldsTo, DraftPass;
      props', marks' := props, marks;
      var i := 0;
      while i < |rows|
        invariant i <= |rows| && |marks'| == |props'| == |rows|
        invariant HoldsTo(c.blockSize, dkv, rows, props', marks') && DraftPass(c.blockSize, dkv0, dkv, rows + others)
        invariant forall l :: 0 <= l < i ==> marks'[l] == rows[l].cached + step + 1 && |props'[l]| == step + 1
        invariant forall l :: i <= l < |rows| ==> marks'[l] == rows[l].cached + step && |props'[l]| == step
      {
        var s := rows[i];
        DraftableRow(c, p, rows, others, kv, dkv0, k, i);
        var position := |s.toks| - 1 + |props'[i]|;
        var t := next(s, props'[i]);
        ProposeStep(c, p, rows, others, kv, dkv0, dkv, props', marks', i, k, t);
        dkv := Write(c.blockSize, dkv, s.table, s.toks + props'[i], position);
        props', marks' := props'[i := props'[i] + [t]], marks'[i := position + 1];
        i := i + 1;
      }
    }
  }

  lemma DraftableLess(c: Config, p: Pool, rows: seq<Row>, others: seq<Row>, kv: Cache, dkv: Cache, k: nat)
    requires c.Valid() && k >= 1 && Draftable(c, p, rows, others, kv, dkv, k)
    ensures Draftable(c, p, rows, others, kv, dkv, 1)
  {
    hide Isolated, AllTrue, CeilDiv;
    forall l | 0 <= l < |rows| ensures CeilDiv(|rows[l].toks| + 1 - 1, c.blockSize) <= |rows[l].table| {
      CeilMono(|rows[l].toks|, |rows[l].toks| + k - 1, c.blockSize);
    }
  }

  lemma CatchUpStart(c: Config, p: Pool, rows: seq<Row>, others: seq<Row>, kv: Cache, dkv: Cache)
    requires c.Valid() && Draftable(c, p, rows, others, kv, dkv, 1)
    ensures HoldsTo(c.blockSize, dkv, rows, seq(|rows|, i => []), seq(|rows|, i requires 0 <= i < |rows| => rows[i].draft))
    ensures DraftPass(c.blockSize, dkv, dkv, rows + others)
  {
    hide Isolated, TrueTo, CeilDiv, DraftPass;
    DraftPassSelf(c.blockSize, dkv, rows + others);
    forall l | 0 <= l < |rows| ensures TrueTo(c.blockSize, dkv, rows[l].table, rows[l].toks + [], rows[l].draft) {
      assert (rows + others)[l] == rows[l] && rows[l].toks + [] == rows[l].toks;
      assert RowTrue(c, kv, dkv, rows[l]);
    }
  }

  lemma ProposedAt(c: Config, p: Pool, rows: seq<Row>, others: seq<Row>, kv: Cache, dkv0: Cache, dkv: Cache,
                   props: seq<seq<Token>>, marks: seq<nat>, k: nat)
    requires c.Valid() && k >= 1 && Draftable(c, p, rows, others, kv, dkv0, k) && HoldsTo(c.blockSize, dkv, rows, props, marks)
    requires forall l :: 0 <= l < |rows| ==> marks[l] == rows[l].cached + k && |props[l]| == k
    ensures Proposed(c, dkv, rows, props, k)
  {
    hide Isolated, AllTrue, TrueTo, CeilDiv;
  }

  /** Every leased batch of a run meets what the passes assume. */
  lemma LeasedDraftable(c: Config, run: seq<World>, acts: seq<Action>, n: nat)
    requires c.Valid() && Injective(c) && Run(c, run, acts) && n < |run| && run[n].phase.Leasing?
    ensures var w := run[n];
      w.phase.k >= 1 && Draftable(c, w.sys.pool, w.sys.running, w.sys.waiting, w.kv, w.dkv, w.phase.k)
  {
    hide Step, Init, Injective, Leased, LeaseBase, IndexTrue, AllTrue, Proposed, Verified, Isolated, CeilDiv;
    RunInv(c, run, acts, n);
    var w, ph := run[n], run[n].phase;
    LeasedIsolated(c, ph.base, w.sys, ph.lease, ph.k, ph.prepared);
    LeasedDrafts(c, ph.base, w.sys, ph.lease, ph.k, ph.prepared);
    LeasedAtLeastOne(c, ph.base, w.sys, ph.lease, ph.k, ph.prepared);
    forall l | 0 <= l < |w.sys.running|
      ensures var s := w.sys.running[l];
        s.cached + 1 == |s.toks| && s.draft <= s.cached && CeilDiv(|s.toks| + ph.k - 1, c.blockSize) <= |s.table|
    {
      var s := w.sys.running[l];
      assert s in w.sys.running + w.sys.waiting;
      LeaseCovered(c, w, l);
      LeasedPlanned(c, ph.base, w.sys, ph.lease, ph.k, ph.prepared, l);
      CeilMono(|s.toks| + ph.k - 1, |s.toks| + ph.k, c.blockSize);
    }
  }

  lemma LeasedAtLeastOne(c: Config, base: Sys, y: Sys, lease: Lease, k: nat, prepared: bool)
    requires c.Valid() && Leased(c, base, y, lease, k, prepared)
    ensures k >= 1
  {
  }

  lemma LeasedPlanned(c: Config, base: Sys, y: Sys, lease: Lease, k: nat, prepared: bool, i: nat)
    requires c.Valid() && Leased(c, base, y, lease, k, prepared) && i < |y.running|
    ensures y.running[i].cached + 1 == |y.running[i].toks|
  {
    LeasedNonEmpty(c, base, y, lease, k, prepared);
    LeasedParts(c, base, y, lease, k, prepared);
    hide Leased, PureDecode, LeaseOf;
    RunningFields(c, base, y, lease, k, prepared, 0);
    RunningFields(c, base, y, lease, k, prepared, i);
    PurePlanned(c, base);
  }
}
